/**
 * The Slack client's own logic: turning plain text into section blocks, putting
 * a channel's history into chronological order, walking the cursor-paginated
 * channel listing, and memoising user and channel names. The Slack Web API is
 * not modelled: its replies are parameters.
 */
module SlackClient {
  import opened Text

  // ---------------------------------------------------------------------------
  // What the Slack API answers

  /** One reply of `users.conversations`: a page of channel IDs and the next cursor, or an error. */
  datatype PageReply = PageFailed(error: string) | Page(channelIDs: seq<string>, nextCursor: string)

  /** `conversations.history` for a channel and a window reaching `hours` back: newest message first. */
  type HistoryApi = (string, int) -> Result<seq<string>>

  /** One match of `search.messages`. */
  datatype SearchMatch = SearchMatch(text: string, channelName: string, user: string)

  /** `search.messages`: an error, or a result that may be nil. */
  datatype SearchReply = SearchFailed(error: string) | Searched(matches: Option<seq<SearchMatch>>)

  /**
   * The workspace as the bot sees it: the successive replies of the channel
   * listing, the history of each channel, and message search by query.
   */
  datatype Workspace = Workspace(pages: seq<PageReply>, history: HistoryApi, search: string -> SearchReply)

  // ---------------------------------------------------------------------------
  // formatText

  /** A section block with a mrkdwn text object. */
  datatype Block = Section(mrkdwn: string)

  /**
   * The bullet literal as slack.go spells it: the three UTF-8 bytes of U+2022
   * read as Windows-1252 ("â€¢"), then a space.
   */
  const SourceBullet: string := "\U{00E2}\U{20AC}\U{00A2} "

  /** The bullet the code means: U+2022 BULLET, then a space. */
  const Bullet: string := "\U{2022} "

  const HeadingCut: set<char> := {'#', ' '}
  const BulletCut: set<char> := {'-', '*'}

  predicate InHeadingCut(c: char) { c in HeadingCut }
  predicate InBulletCut(c: char) { c in BulletCut }

  /** The classification of one trimmed line, with the bullet literal as a parameter. */
  function FormatLineWith(line: string, bullet: string): Block
  {
    if HasPrefix(line, "#") then Section("*" + TrimLeft(line, InHeadingCut) + "*")
    else if HasPrefix(line, "```") then Section(line)
    else if HasPrefix(line, "-") || HasPrefix(line, "*") then Section(bullet + TrimLeft(line, InBulletCut))
    else Section(line)
  }

  /** One trimmed line as a block. */
  function FormatLine(line: string): Block
  {
    FormatLineWith(line, Bullet)
  }

  /** One trimmed line as a block, with the bullet literal exactly as slack.go has it. */
  function FormatLineAsWritten(line: string): Block
  {
    FormatLineWith(line, SourceBullet)
  }

  /** The blocks of one raw line: none if it is blank after trimming. */
  function LineBlocks(line: string): seq<Block>
  {
    var t := TrimSpace(line);
    if t == "" then [] else [FormatLine(t)]
  }

  /** The blocks of a sequence of raw lines, in line order. */
  function FormatLines(lines: seq<string>): seq<Block>
  {
    FlatMap(lines, LineBlocks)
  }

  /** One more line adds its blocks at the end. */
  lemma FormatLinesSnoc(lines: seq<string>, i: nat)
    requires i < |lines|
    ensures var t := TrimSpace(lines[i]);
      FormatLines(lines[..i + 1]) == FormatLines(lines[..i]) + if t == "" then [] else [FormatLine(t)]
  {
    FlatMapSnoc(lines, i, LineBlocks);
  }

  /** Text is formatted line by line: a line break splits the blocks. */
  lemma FormatTextAtBreak(a: string, b: string)
    ensures FormatLines(Split(a + "\n" + b)) == FormatLines(Split(a)) + FormatLines(Split(b))
  {
    SplitAtBreak(a, b);
    FlatMapAppend(Split(a), Split(b), LineBlocks);
  }

  /** A single line gives no block when it is blank and exactly one block otherwise. */
  lemma FormatTextOfLine(line: string)
    requires '\n' !in line
    ensures TrimSpace(line) == "" ==> FormatLines(Split(line)) == []
    ensures TrimSpace(line) != "" ==> FormatLines(Split(line)) == [FormatLine(TrimSpace(line))]
  {
    SplitSingleLine(line);
    assert [line][..0] == [];
    assert FlatMap([line], LineBlocks) == FlatMap([], LineBlocks) + LineBlocks(line);
  }

  /**
   * A heading keeps the line after its leading run of '#' and ' ', wrapped in
   * '*', whatever the bullet literal: `k` is where that run ends.
   */
  lemma HeadingLine(line: string, k: nat, bullet: string)
    requires HasPrefix(line, "#")
    requires k <= |line| && (forall i :: 0 <= i < k ==> line[i] in HeadingCut) && (k == |line| || line[k] !in HeadingCut)
    ensures FormatLineWith(line, bullet) == Section("*" + line[k..] + "*")
  {
    RunEndIsUnique(line, 0, InHeadingCut, k);
  }

  /** A code-fence line is kept verbatim, whatever the bullet literal. */
  lemma CodeFenceLine(line: string, bullet: string)
    requires HasPrefix(line, "```")
    ensures FormatLineWith(line, bullet) == Section(line)
  {
    assert line[0] == '`';
  }

  /**
   * A bullet line loses its leading run of '-' and '*' and gets the bullet
   * literal in front: `k` is where that run ends.
   */
  lemma BulletLine(line: string, k: nat, bullet: string)
    requires line != [] && (line[0] == '-' || line[0] == '*')
    requires k <= |line| && (forall i :: 0 <= i < k ==> line[i] in BulletCut) && (k == |line| || line[k] !in BulletCut)
    ensures FormatLineWith(line, bullet) == Section(bullet + line[k..])
  {
    NotHeadingOrFence(line);
    assert HasPrefix(line, "-") || HasPrefix(line, "*") by {
      assert line[..1] == [line[0]];
    }
    RunEndIsUnique(line, 0, InBulletCut, k);
  }

  /** A line that starts with neither '#' nor '`' is no heading and no code fence. */
  lemma NotHeadingOrFence(line: string)
    requires line != [] && line[0] != '#' && line[0] != '`'
    ensures !HasPrefix(line, "#") && !HasPrefix(line, "```")
  {
    assert line[..1][0] == line[0];
  }

  /** Any other line is kept unchanged, whatever the bullet literal. */
  lemma PlainLine(line: string, bullet: string)
    requires line != [] && line[0] != '#' && line[0] != '-' && line[0] != '*' && !HasPrefix(line, "```")
    ensures FormatLineWith(line, bullet) == Section(line)
  {
    assert line[..1][0] == line[0];
  }

  /** The space after the dash stays: "- x" becomes the bullet, then " x". */
  lemma DashBulletExample()
    ensures FormatLine("- x") == Section(Bullet + " x")
  {
    BulletLine("- x", 1, Bullet);
    assert "- x"[1..] == " x";
  }

  // The bullet literal in slack.go, byte by byte.

  /** The three-byte UTF-8 encoding of a character in U+0800..U+FFFF. */
  function Utf8Bytes3(c: char): seq<nat>
    requires 0x800 <= c as int <= 0xFFFF
  {
    var v := c as int;
    [0xE0 + v / 4096, 0x80 + (v / 64) % 64, 0x80 + v % 64]
  }

  /** Windows-1252 decoding of the bytes that occur here: 0x80 is the euro sign, 0xA0..0xFF are Latin-1. */
  function Cp1252(b: nat): char
    requires b == 0x80 || 0xA0 <= b <= 0xFF
  {
    if b == 0x80 then '\U{20AC}' else b as char
  }

  /** The as-written bullet is U+2022 encoded in UTF-8 and decoded as Windows-1252, so it differs from the bullet meant. */
  lemma SourceBulletIsMisencoded()
    ensures Utf8Bytes3('\U{2022}') == [0xE2, 0x80, 0xA2]
    ensures SourceBullet == [Cp1252(0xE2), Cp1252(0x80), Cp1252(0xA2)] + " "
    ensures FormatLineAsWritten("- x") == Section(SourceBullet + " x")
    ensures FormatLineAsWritten("- x") != FormatLine("- x")
  {
    DashBulletExample();
    BulletLine("- x", 1, SourceBullet);
    assert "- x"[1..] == " x";
    assert (SourceBullet + " x")[0] != (Bullet + " x")[0];
  }

  /** With the corrected literal a bullet line starts with U+2022 and a space. */
  lemma BulletLineStartsWithBullet(line: string)
    requires line != [] && (line[0] == '-' || line[0] == '*')
    ensures FormatLine(line).mrkdwn[..2] == ['\U{2022}', ' ']
  {
    BulletLine(line, RunEnd(line, 0, InBulletCut), Bullet);
  }

  // ---------------------------------------------------------------------------
  // Chronological order of a channel's history

  /** The same elements in the opposite order. */
  function Reversed<T>(s: seq<T>): (r: seq<T>)
  {
    seq(|s|, i requires 0 <= i < |s| => s[|s| - 1 - i])
  }

  lemma {:induction false} ReversedPermutes<T>(s: seq<T>)
    ensures multiset(Reversed(s)) == multiset(s)
  {
    if s != [] {
      var n := |s|;
      assert Reversed(s) == [s[n - 1]] + Reversed(s[..n - 1]);
      ReversedPermutes(s[..n - 1]);
      assert s == s[..n - 1] + [s[n - 1]];
    }
  }

  lemma ReversedTwice<T>(s: seq<T>)
    ensures Reversed(Reversed(s)) == s
  {
  }

  /** The two-pointer swap loop of GetConversationHistory. */
  method ReverseInPlace<T>(a: array<T>)
    modifies a
    ensures a[..] == Reversed(old(a[..]))
  {
    var i, j := 0, a.Length - 1;
    while i < j
      invariant 0 <= i && j == a.Length - 1 - i && i <= a.Length - i
      invariant forall k :: 0 <= k < i ==> a[k] == old(a[a.Length - 1 - k]) && a[a.Length - 1 - k] == old(a[k])
      invariant forall k :: i <= k < a.Length - i ==> a[k] == old(a[k])
    {
      a[i], a[j] := a[j], a[i];
      i, j := i + 1, j - 1;
    }
  }

  // ---------------------------------------------------------------------------
  // Channel listing with cursor pagination

  /** The listing stops after 30 channel IDs. */
  const ChannelLimit: nat := 30

  /** A reply after which GetPublicChannels asks for no further page. */
  predicate Final(reply: PageReply)
  {
    reply.PageFailed? || reply.nextCursor == ""
  }

  /** The API's successive replies end: the last one is an error or has no next cursor. */
  predicate PagesEnd(pages: seq<PageReply>)
  {
    |pages| > 0 && Final(pages[|pages| - 1])
  }

  /** All channel IDs the replies carry, in order. */
  function AllIDs(pages: seq<PageReply>): seq<string>
  {
    if pages == [] then []
    else (if pages[0].Page? then pages[0].channelIDs else []) + AllIDs(pages[1..])
  }

  /** What GetPublicChannels returns when `acc` has been collected and `pages` are the replies still to come. */
  function Listing(pages: seq<PageReply>, acc: seq<string>): Result<seq<string>>
    requires PagesEnd(pages) && |acc| < ChannelLimit
    decreases |pages|
  {
    match pages[0]
    case PageFailed(e) => Err("failed to get user conversations: " + e)
    case Page(ids, next) =>
      var all := acc + ids;
      if |all| >= ChannelLimit then Ok(all[..ChannelLimit])
      else if next == "" then Ok(all)
      else Listing(pages[1..], all)
  }

  /**
   * How many `users.conversations` requests GetPublicChannels makes: one per
   * page, stopping after a failed page, the page that reaches 30 IDs, or a
   * page with no next cursor.
   */
  function Requests(pages: seq<PageReply>, acc: seq<string>): (n: nat)
    requires PagesEnd(pages) && |acc| < ChannelLimit
    ensures 1 <= n <= |pages|
    decreases |pages|
  {
    match pages[0]
    case PageFailed(_) => 1
    case Page(ids, next) =>
      var all := acc + ids;
      if |all| >= ChannelLimit || next == "" then 1
      else 1 + Requests(pages[1..], all)
  }

  /** The listing and the request count from page `k` on, by what page `k` answers. */
  lemma ListingAt(pages: seq<PageReply>, k: nat, acc: seq<string>)
    requires PagesEnd(pages) && k < |pages| && |acc| < ChannelLimit
    ensures pages[k].PageFailed? ==>
      Listing(pages[k..], acc) == Err("failed to get user conversations: " + pages[k].error) && Requests(pages[k..], acc) == 1
    ensures pages[k].Page? && |acc + pages[k].channelIDs| >= ChannelLimit ==>
      Listing(pages[k..], acc) == Ok((acc + pages[k].channelIDs)[..ChannelLimit]) && Requests(pages[k..], acc) == 1
    ensures pages[k].Page? && |acc + pages[k].channelIDs| < ChannelLimit && pages[k].nextCursor == "" ==>
      Listing(pages[k..], acc) == Ok(acc + pages[k].channelIDs) && Requests(pages[k..], acc) == 1
    ensures pages[k].Page? && |acc + pages[k].channelIDs| < ChannelLimit && pages[k].nextCursor != "" ==>
      k + 1 < |pages| &&
      Listing(pages[k..], acc) == Listing(pages[k + 1..], acc + pages[k].channelIDs) &&
      Requests(pages[k..], acc) == 1 + Requests(pages[k + 1..], acc + pages[k].channelIDs)
  {
    assert pages[k..][0] == pages[k] && pages[k..][1..] == pages[k + 1..];
  }

  lemma {:induction false} AllIDsAppend(a: seq<PageReply>, b: seq<PageReply>)
    ensures AllIDs(a + b) == AllIDs(a) + AllIDs(b)
    decreases |a|
  {
    if a != [] {
      assert (a + b)[1..] == a[1..] + b;
      AllIDsAppend(a[1..], b);
    } else {
      assert a + b == b;
    }
  }

  /** Every listing is an in-order prefix of all the IDs, and at most 30 long. */
  lemma {:induction false} ListingIsBoundedPrefix(pages: seq<PageReply>, acc: seq<string>)
    requires PagesEnd(pages) && |acc| < ChannelLimit
    ensures Listing(pages, acc).Ok? ==>
      var ids := Listing(pages, acc).value;
      |ids| <= ChannelLimit && ids <= acc + AllIDs(pages)
    decreases |pages|
  {
    match pages[0]
    case PageFailed(_) =>
    case Page(ids, next) =>
      var all := acc + ids;
      assert acc + AllIDs(pages) == all + AllIDs(pages[1..]);
      if |all| < ChannelLimit && next != "" {
        ListingIsBoundedPrefix(pages[1..], all);
      }
  }

  /** An error on any page requested discards every page before it. */
  lemma {:induction false} ListingErrorDiscards(pages: seq<PageReply>, acc: seq<string>, k: nat)
    requires PagesEnd(pages) && |acc| < ChannelLimit
    requires k < |pages| && pages[k].PageFailed?
    requires forall t :: 0 <= t < k ==> pages[t].Page? && pages[t].nextCursor != ""
    requires |acc + AllIDs(pages[..k])| < ChannelLimit
    ensures Listing(pages, acc) == Err("failed to get user conversations: " + pages[k].error)
    ensures Requests(pages, acc) == k + 1
    decreases k
  {
    if k > 0 {
      var all := acc + pages[0].channelIDs;
      assert pages[..k] == [pages[0]] + pages[1..][..k - 1];
      assert AllIDs(pages[..k]) == pages[0].channelIDs + AllIDs(pages[1..][..k - 1]);
      assert acc + AllIDs(pages[..k]) == all + AllIDs(pages[1..][..k - 1]);
      ListingErrorDiscards(pages[1..], all, k - 1);
    }
  }

  /**
   * Once the pages requested carry 30 IDs or more, the listing is exactly the
   * first 30 of them: the page at `k` (or an earlier one) reaches the cap.
   */
  lemma {:induction false} ListingCapped(pages: seq<PageReply>, acc: seq<string>, k: nat)
    requires PagesEnd(pages) && |acc| < ChannelLimit
    requires k < |pages|
    requires forall t :: 0 <= t < k ==> pages[t].Page? && pages[t].nextCursor != ""
    requires |acc + AllIDs(pages[..k + 1])| >= ChannelLimit
    ensures |acc + AllIDs(pages)| >= ChannelLimit
    ensures Listing(pages, acc) == Ok((acc + AllIDs(pages))[..ChannelLimit])
    ensures Requests(pages, acc) <= k + 1
    decreases k
  {
    AllIDsAppend(pages[..k + 1], pages[k + 1..]);
    assert pages[..k + 1] + pages[k + 1..] == pages;
    var p := pages[0];
    assert pages[..k + 1][0] == p && pages[..k + 1][1..] == pages[1..][..k];
    assert AllIDs(pages[..k + 1]) == (if p.Page? then p.channelIDs else []) + AllIDs(pages[1..][..k]);
    assert acc + AllIDs(pages) == acc + (if p.Page? then p.channelIDs else []) + AllIDs(pages[1..]);
    if k == 0 {
      assert pages[1..][..0] == [];
      assert p.Page?;
      var all := acc + p.channelIDs;
      assert (all + AllIDs(pages[1..]))[..ChannelLimit] == all[..ChannelLimit];
    } else {
      var all := acc + p.channelIDs;
      if |all| >= ChannelLimit {
        assert (all + AllIDs(pages[1..]))[..ChannelLimit] == all[..ChannelLimit];
      } else {
        forall t | 0 <= t < k - 1
          ensures pages[1..][t].Page? && pages[1..][t].nextCursor != ""
        {
          assert pages[1..][t] == pages[t + 1];
        }
        assert acc + AllIDs(pages[..k + 1]) == all + AllIDs(pages[1..][..k - 1 + 1]);
        ListingCapped(pages[1..], all, k - 1);
      }
    }
  }

  /** Fewer than 30 IDs in all: the listing is every ID, up to the page without a next cursor. */
  lemma {:induction false} ListingComplete(pages: seq<PageReply>, acc: seq<string>)
    requires PagesEnd(pages) && pages[|pages| - 1].Page?
    requires forall t :: 0 <= t < |pages| - 1 ==> pages[t].Page? && pages[t].nextCursor != ""
    requires |acc + AllIDs(pages)| < ChannelLimit
    ensures Listing(pages, acc) == Ok(acc + AllIDs(pages))
    ensures Requests(pages, acc) == |pages|
    decreases |pages|
  {
    var all := acc + pages[0].channelIDs;
    assert acc + AllIDs(pages) == all + AllIDs(pages[1..]);
    assert |all| < ChannelLimit;
    if |pages| > 1 {
      assert pages[0].Page? && pages[0].nextCursor != "";
      forall t | 0 <= t < |pages[1..]| - 1
        ensures pages[1..][t].Page? && pages[1..][t].nextCursor != ""
      {
        assert pages[1..][t] == pages[t + 1];
      }
      ListingComplete(pages[1..], all);
    } else {
      assert pages[1..] == [] && Final(pages[0]);
      assert pages[0].nextCursor == "";
      assert AllIDs(pages[1..]) == [];
      assert acc + AllIDs(pages) == all;
    }
  }

  /**
   * The cursors sent by GetPublicChannels: the first request has no cursor and
   * each later one carries the next cursor of the page before it.
   */
  ghost predicate CursorsFollowPages(pages: seq<PageReply>, cursors: seq<string>)
  {
    1 <= |cursors| <= |pages| && cursors[0] == "" &&
    forall t :: 0 <= t < |cursors| - 1 ==> pages[t].Page? && cursors[t + 1] == pages[t].nextCursor
  }

  /** Sending the next cursor of the last page answered keeps the cursors following the pages. */
  lemma CursorsExtend(pages: seq<PageReply>, sent: seq<string>, cursor: string)
    requires CursorsFollowPages(pages, sent) && |sent| < |pages|
    requires pages[|sent| - 1].Page? && cursor == pages[|sent| - 1].nextCursor
    ensures CursorsFollowPages(pages, sent + [cursor])
  {
    var cs := sent + [cursor];
    forall t | 0 <= t < |cs| - 1
      ensures pages[t].Page? && cs[t + 1] == pages[t].nextCursor
    {
      if t + 1 < |sent| { assert cs[t + 1] == sent[t + 1]; }
    }
  }

  // ---------------------------------------------------------------------------
  // Chronological histories of several channels

  /** A channel's messages in chronological order, or nothing when its history cannot be fetched. */
  function ChannelMessages(history: HistoryApi, channel: string, hours: int): seq<string>
  {
    match history(channel, hours)
    case Ok(raw) => Reversed(raw)
    case Err(_) => []
  }

  /** The messages of the channels in channel order, then in each channel's chronological order. */
  function Gather(channels: seq<string>, history: HistoryApi, hours: int): seq<string>
  {
    FlatMap(channels, c => ChannelMessages(history, c, hours))
  }

  /** A channel whose history fails is skipped; one that answers adds its messages oldest first, in place. */
  lemma GatherChannel(a: seq<string>, c: string, b: seq<string>, history: HistoryApi, hours: int)
    ensures history(c, hours).Err? ==>
      Gather(a + [c] + b, history, hours) == Gather(a, history, hours) + Gather(b, history, hours)
    ensures history(c, hours).Ok? ==>
      Gather(a + [c] + b, history, hours) == Gather(a, history, hours) + Reversed(history(c, hours).value) + Gather(b, history, hours)
  {
    var f := c => ChannelMessages(history, c, hours);
    FlatMapAppend(a + [c], b, f);
    FlatMapAppend(a, [c], f);
    assert [c][..0] == [];
  }

  // ---------------------------------------------------------------------------
  // The client object and its name caches

  datatype ApiCall = UserInfo(userID: string) | ConversationInfo(channelID: string)

  /**
   * The outcome of a memoised name lookup for `id`, given the cache before and
   * after and what the API would answer: a hit answers from the cache, a failed
   * lookup falls back to the ID itself, a successful one is stored.
   */
  predicate Memoized(before: map<string, string>, after: map<string, string>, id: string, reply: Option<string>, name: string)
  {
    if id in before then name == before[id] && after == before
    else if reply.None? then name == id && after == before
    else name == reply.value && after == before[id := reply.value]
  }

  /** A lookup never overwrites or drops an existing entry, and adds at most the ID asked about. */
  lemma MemoizedKeepsEntries(before: map<string, string>, after: map<string, string>, id: string, reply: Option<string>, name: string)
    requires Memoized(before, after, id, reply, name)
    ensures forall k :: k in before ==> k in after && after[k] == before[k]
    ensures after.Keys <= before.Keys + {id}
    ensures id in after ==> after[id] == name
  {
  }

  /** Once a name is resolved, asking again returns it whatever the API would now say. */
  lemma MemoizedIsStable(m0: map<string, string>, m1: map<string, string>, m2: map<string, string>,
                         id: string, r1: Option<string>, r2: Option<string>, n1: string, n2: string)
    requires Memoized(m0, m1, id, r1, n1) && Memoized(m1, m2, id, r2, n2)
    requires id in m0 || r1.Some?
    ensures n2 == n1 && m2 == m1
  {
  }

  class Client {
    var userCache: map<string, string>
    var channelCache: map<string, string>
    /** The name lookups sent to the Slack API, in order. */
    ghost var lookups: seq<ApiCall>

    constructor ()
      ensures userCache == map[] && channelCache == map[] && lookups == []
    {
      userCache, channelCache := map[], map[];
      lookups := [];
    }

    /**
     * SendMessage: the blocks posted to the channel. `decoded` is the outcome of
     * reading the message as a JSON block list; when that fails the message is
     * posted as formatText lays it out.
     */
    method SendMessage(message: string, decoded: Option<seq<Block>>) returns (posted: seq<Block>)
      ensures decoded.Some? ==> posted == decoded.value
      ensures decoded.None? ==> posted == FormatLines(Split(message))
    {
      if decoded.Some? {
        return decoded.value;
      }
      posted := FormatText(message);
    }

    /** formatText: one section block per non-blank line, in line order. */
    method FormatText(message: string) returns (blocks: seq<Block>)
      ensures blocks == FormatLines(Split(message))
    {
      var lines := Split(message);
      blocks := [];
      var i := 0;
      while i < |lines|
        invariant 0 <= i <= |lines|
        invariant blocks == FormatLines(lines[..i])
      {
        FormatLinesSnoc(lines, i);
        var line := TrimSpace(lines[i]);
        if line != "" {
          blocks := blocks + [FormatLine(line)];
        }
        i := i + 1;
      }
      assert lines[..i] == lines;
    }

    /** GetConversationHistory: the API's newest-first reply, put into chronological order in place. */
    method GetConversationHistory(reply: Result<seq<string>>) returns (r: Result<seq<string>>)
      ensures reply.Err? ==> r == reply
      ensures reply.Ok? ==> r == Ok(Reversed(reply.value))
    {
      if reply.Err? {
        return reply;
      }
      var msgs := reply.value;
      var a := new string[|msgs|](k requires 0 <= k < |msgs| => msgs[k]);
      assert a[..] == msgs;
      ReverseInPlace(a);
      r := Ok(a[..]);
    }

    /** GetPublicChannels: follows the cursor until it is empty or 30 IDs are collected. */
    method GetPublicChannels(pages: seq<PageReply>) returns (result: Result<seq<string>>, cursors: seq<string>)
      requires PagesEnd(pages)
      ensures result == Listing(pages, [])
      ensures CursorsFollowPages(pages, cursors)
      ensures |cursors| == Requests(pages, [])
    {
      var all: seq<string> := [];
      var cursor := "";
      var k := 0;
      cursors := [];
      while true
        invariant 0 <= k < |pages| && |all| < ChannelLimit
        invariant Listing(pages[k..], all) == Listing(pages, [])
        invariant k + Requests(pages[k..], all) == Requests(pages, [])
        invariant |cursors| == k && (k == 0 ==> cursor == "")
        invariant k > 0 ==> pages[k - 1].Page? && cursor == pages[k - 1].nextCursor
        invariant k > 0 ==> CursorsFollowPages(pages, cursors)
        decreases |pages| - k
      {
        ghost var sent := cursors;
        cursors := cursors + [cursor];
        if k > 0 {
          CursorsExtend(pages, sent, cursor);
        }
        var reply := pages[k];
        ListingAt(pages, k, all);
        if reply.PageFailed? {
          result := Err("failed to get user conversations: " + reply.error);
          return;
        }
        ghost var before := all;
        var ids := reply.channelIDs;
        var j := 0;
        while j < |ids|
          invariant 0 <= j <= |ids| && all == before + ids[..j] && |all| < ChannelLimit
        {
          all := all + [ids[j]];
          if |all| >= ChannelLimit {
            break;
          }
          j := j + 1;
        }
        if |all| >= ChannelLimit || reply.nextCursor == "" {
          if |all| >= ChannelLimit {
            assert all == (before + ids)[..ChannelLimit];
          } else {
            assert ids[..j] == ids;
          }
          break;
        }
        assert ids[..j] == ids;
        cursor := reply.nextCursor;
        k := k + 1;
      }
      result := Ok(all);
    }

    /** GetUserName: answers from the cache, else asks the API and stores a successful answer. */
    method GetUserName(userID: string, users: string -> Option<string>) returns (name: string)
      modifies this`userCache, this`lookups
      ensures Memoized(old(userCache), userCache, userID, users(userID), name)
      ensures lookups == if userID in old(userCache) then old(lookups) else old(lookups) + [UserInfo(userID)]
    {
      if userID in userCache {
        return userCache[userID];
      }
      lookups := lookups + [UserInfo(userID)];
      var user := users(userID);
      if user.None? {
        return userID;
      }
      userCache := userCache[userID := user.value];
      name := user.value;
    }

    /** GetChannelName: the same memoisation over the channel cache. */
    method GetChannelName(channelID: string, channels: string -> Option<string>) returns (name: string)
      modifies this`channelCache, this`lookups
      ensures Memoized(old(channelCache), channelCache, channelID, channels(channelID), name)
      ensures lookups == if channelID in old(channelCache) then old(lookups) else old(lookups) + [ConversationInfo(channelID)]
    {
      if channelID in channelCache {
        return channelCache[channelID];
      }
      lookups := lookups + [ConversationInfo(channelID)];
      var channel := channels(channelID);
      if channel.None? {
        return channelID;
      }
      channelCache := channelCache[channelID := channel.value];
      name := channel.value;
    }
  }
}
