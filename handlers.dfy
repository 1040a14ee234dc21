/**
 * The `/summary` slash command: the HTTP decision of HandleCommand, the
 * duration syntax of parseDuration, and the calls processSummaryCommand makes.
 * The request verifier, the form parser, the Jira client and the agent's
 * consolidation step are parameters.
 */
module Handlers {
  import opened Text
  import opened SlackClient

  // ---------------------------------------------------------------------------
  // parseDuration: `^(\d+)([dh])`

  function DurationError(s: string): string
  {
    "invalid duration format: " + s
  }

  /** The window a command asks for, in hours: digits at the very start, then 'd' (days) or 'h' (hours). */
  function ParseCommandDuration(s: string): Result<int>
  {
    var n := RunEnd(s, 0, IsDigit);
    if n == 0 || n == |s| || (s[n] != 'd' && s[n] != 'h') then Err(DurationError(s))
    else
      DigitRunIsDigits(s, 0);
      match Atoi(s[..n])
      case Err(e) => Err(e)
      case Ok(v) => Ok(if s[n] == 'd' then v * 24 else v)
  }

  /** The shape `^(\d+)([dh])` accepts: a non-empty digit prefix `s[..i]` and a unit letter at `i`; the rest is ignored. */
  ghost predicate CommandForm(s: string, i: int)
  {
    0 < i < |s| && AllDigits(s[..i]) && (s[i] == 'd' || s[i] == 'h')
  }

  /** A well-formed command with a count that fits an `int` parses to days times 24 or to hours. */
  lemma {:induction false} CommandDurationAccepts(s: string, i: int)
    requires CommandForm(s, i) && Decimal(s[..i]) <= MaxInt
    ensures ParseCommandDuration(s) == Ok(if s[i] == 'd' then Decimal(s[..i]) * 24 else Decimal(s[..i]))
  {
    forall k | 0 <= k < i ensures IsDigit(s[k]) {
      assert s[..i][k] == s[k];
    }
    RunEndIsUnique(s, 0, IsDigit, i);
  }

  /** A well-formed command whose count overflows `int` is an error, whatever the regular expression guarantees. */
  lemma CommandDurationOverflow(s: string, i: int)
    requires CommandForm(s, i) && Decimal(s[..i]) > MaxInt
    ensures ParseCommandDuration(s).Err?
  {
    forall k | 0 <= k < i ensures IsDigit(s[k]) {
      assert s[..i][k] == s[k];
    }
    RunEndIsUnique(s, 0, IsDigit, i);
  }

  /** Whatever parses has the accepted shape. */
  lemma CommandDurationSound(s: string)
    ensures ParseCommandDuration(s).Ok? ==> exists i :: CommandForm(s, i)
  {
    var n := RunEnd(s, 0, IsDigit);
    if ParseCommandDuration(s).Ok? {
      DigitRunIsDigits(s, 0);
      assert CommandForm(s, n);
    }
  }

  /** Text after the unit letter is ignored: "7days" is seven days. */
  lemma SevenDaysExample()
    ensures ParseCommandDuration("7days") == Ok(168)
  {
    assert "7days"[..1] == "7";
    CommandDurationAccepts("7days", 1);
  }

  lemma HoursExample()
    ensures ParseCommandDuration("48h") == Ok(48)
  {
    assert "48h"[..2] == "48" && Decimal("48") == 48 by { assert "48"[..1] == "4"; }
    CommandDurationAccepts("48h", 2);
  }

  /** No space may come between the count and the unit. */
  lemma SpacedUnitRejected()
    ensures ParseCommandDuration("7 d").Err?
  {
    assert RunEnd("7 d", 0, IsDigit) == 1 by { RunEndIsUnique("7 d", 0, IsDigit, 1); }
  }

  // ---------------------------------------------------------------------------
  // HandleCommand

  const StatusOK: int := 200
  const StatusBadRequest: int := 400
  const StatusUnauthorized: int := 401
  const StatusInternalServerError: int := 500

  /** The parsed form of a slash command. */
  datatype SlashCommand = SlashCommand(command: string, channelID: string, text: string)

  /** A summary run started in the background for a channel and the command text. */
  datatype SummaryJob = SummaryJob(channelID: string, text: string)

  datatype Response = Response(status: int, body: string, job: Option<SummaryJob>)

  /**
   * The checks of HandleCommand in their order: the verifier could be set up,
   * the form parsed, the signature holds; then the command is dispatched.
   */
  function HandleCommand(verifierReady: bool, parsed: Option<SlashCommand>, signatureValid: bool): Response
  {
    if !verifierReady then Response(StatusInternalServerError, "", None)
    else if parsed.None? then Response(StatusBadRequest, "", None)
    else if !signatureValid then Response(StatusUnauthorized, "", None)
    else if parsed.value.command == "/summary" then
      Response(StatusOK, "", Some(SummaryJob(parsed.value.channelID, parsed.value.text)))
    else Response(StatusBadRequest, "Unsupported command", None)
  }

  /** Each status in terms of the request; a job is started only for a verified "/summary". */
  lemma HandleCommandDecisions(verifierReady: bool, parsed: Option<SlashCommand>, signatureValid: bool)
    ensures var r := HandleCommand(verifierReady, parsed, signatureValid);
      (r.status == StatusInternalServerError <==> !verifierReady) &&
      (r.status == StatusUnauthorized <==> verifierReady && parsed.Some? && !signatureValid) &&
      (r.status == StatusBadRequest <==>
        verifierReady && (parsed.None? || (signatureValid && parsed.value.command != "/summary"))) &&
      (r.status == StatusOK <==> r.job.Some?) &&
      (r.job.Some? <==> verifierReady && parsed.Some? && signatureValid && parsed.value.command == "/summary") &&
      (r.job.Some? ==> r.job.value == SummaryJob(parsed.value.channelID, parsed.value.text)) &&
      (r.body != "" <==> r.status == StatusBadRequest && parsed.Some?) &&
      (r.body != "" ==> r.body == "Unsupported command")
  {
  }

  /** A bad signature is reported as 401 whatever the command, so nothing unverified is dispatched. */
  lemma UnverifiedNeverDispatched(parsed: SlashCommand)
    ensures HandleCommand(true, Some(parsed), false) == Response(StatusUnauthorized, "", None)
  {
  }

  // ---------------------------------------------------------------------------
  // processSummaryCommand

  const InvalidRangeText: string := "Error: Invalid time range format. Please use a format like '48h' or '7d'. Using default of 24h."
  const ChannelsErrorText: string := "Error: Could not fetch public channels."
  const JiraErrorText: string := "Error: Could not fetch Jira issues."
  const JiraQuery: string := "status=new"

  /** The outward calls of a summary run, in order. */
  datatype Call = Post(channel: string, text: string) | FetchHistory(channel: string, hours: int) | FetchIssues(query: string)

  /** The window of the command text, and whether the user is told it was invalid. */
  datatype Window = Window(hours: int, invalid: bool)

  function CommandWindow(commandText: string): Window
  {
    var t := TrimSpace(commandText);
    if t == "" then Window(24, false)
    else match ParseCommandDuration(t)
      case Ok(h) => Window(h, false)
      case Err(_) => Window(24, true)
  }

  function HistoryFetch(hours: int): string -> seq<Call>
  {
    c => [FetchHistory(c, hours)]
  }

  /** The calls after the window is settled: list the channels, read each one's history, fetch the issues, post. */
  function RunCalls(channel: string, hours: int, pages: seq<PageReply>, history: HistoryApi,
                    jira: Result<seq<string>>, consolidate: (seq<string>, seq<string>) -> string): seq<Call>
    requires PagesEnd(pages)
  {
    match Listing(pages, [])
    case Err(_) => [Post(channel, ChannelsErrorText)]
    case Ok(channels) =>
      FlatMap(channels, HistoryFetch(hours)) + [FetchIssues(JiraQuery)] +
      match jira
      case Err(_) => [Post(channel, JiraErrorText)]
      case Ok(issues) => [Post(channel, consolidate(Gather(channels, history, hours), issues))]
  }

  /** What processSummaryCommand does for a request channel, once the command text has given window `w`. */
  function SummaryCommandCalls(channel: string, w: Window, pages: seq<PageReply>, history: HistoryApi,
                               jira: Result<seq<string>>, consolidate: (seq<string>, seq<string>) -> string): seq<Call>
    requires PagesEnd(pages)
  {
    (if w.invalid then [Post(channel, InvalidRangeText)] else []) + RunCalls(channel, w.hours, pages, history, jira, consolidate)
  }

  /** Blank text uses 24 hours and posts no warning. */
  lemma BlankTextUsesDefault(commandText: string)
    requires TrimSpace(commandText) == ""
    ensures CommandWindow(commandText) == Window(24, false)
  {
  }

  /** Text that parses gives its window and posts no warning. */
  lemma ParsedTextUsesIt(commandText: string, hours: int)
    requires ParseCommandDuration(TrimSpace(commandText)) == Ok(hours)
    ensures CommandWindow(commandText) == Window(hours, false)
  {
  }

  /** Text that does not parse is announced first; the run then goes on exactly as for blank text. */
  lemma InvalidTextWarnsFirst(channel: string, commandText: string, pages: seq<PageReply>, history: HistoryApi,
                              jira: Result<seq<string>>, consolidate: (seq<string>, seq<string>) -> string)
    requires PagesEnd(pages)
    requires TrimSpace(commandText) != "" && ParseCommandDuration(TrimSpace(commandText)).Err?
    ensures SummaryCommandCalls(channel, CommandWindow(commandText), pages, history, jira, consolidate) ==
      [Post(channel, InvalidRangeText)] + SummaryCommandCalls(channel, CommandWindow(""), pages, history, jira, consolidate)
  {
    assert CommandWindow(commandText) == Window(24, true);
    assert CommandWindow("") == Window(24, false) by {
      assert TrimSpace("") == "";
    }
    WarningPrefix(channel, 24, pages, history, jira, consolidate);
  }

  /** An invalid window adds the warning in front of the same run. */
  lemma WarningPrefix(channel: string, hours: int, pages: seq<PageReply>, history: HistoryApi,
                      jira: Result<seq<string>>, consolidate: (seq<string>, seq<string>) -> string)
    requires PagesEnd(pages)
    ensures SummaryCommandCalls(channel, Window(hours, true), pages, history, jira, consolidate) ==
      [Post(channel, InvalidRangeText)] + SummaryCommandCalls(channel, Window(hours, false), pages, history, jira, consolidate)
  {
    var run := RunCalls(channel, hours, pages, history, jira, consolidate);
    assert [] + run == run;
  }

  /** The history requests of a run, one per listed channel, in order, each over the run's window. */
  lemma {:induction false} OnlyFetches(channels: seq<string>, hours: int)
    ensures var fs := FlatMap(channels, HistoryFetch(hours));
      |fs| == |channels| && forall k :: 0 <= k < |fs| ==> fs[k] == FetchHistory(channels[k], hours)
    decreases |channels|
  {
    if channels != [] {
      var n := |channels|;
      OnlyFetches(channels[..n - 1], hours);
    }
  }

  /** A failed channel listing posts the error and stops: no history and no Jira request. */
  lemma ChannelFailureStops(channel: string, w: Window, pages: seq<PageReply>, history: HistoryApi,
                            jira: Result<seq<string>>, consolidate: (seq<string>, seq<string>) -> string)
    requires PagesEnd(pages) && Listing(pages, []).Err?
    ensures var calls := SummaryCommandCalls(channel, w, pages, history, jira, consolidate);
      calls[|calls| - 1] == Post(channel, ChannelsErrorText) &&
      forall k :: 0 <= k < |calls| ==> calls[k].Post?
  {
    assert RunCalls(channel, w.hours, pages, history, jira, consolidate) == [Post(channel, ChannelsErrorText)];
  }

  /** A failed Jira request posts the error instead of a summary, after one history request per channel. */
  lemma JiraFailureNoSummary(channel: string, w: Window, pages: seq<PageReply>, history: HistoryApi,
                             jira: Result<seq<string>>, consolidate: (seq<string>, seq<string>) -> string)
    requires PagesEnd(pages) && Listing(pages, []).Ok? && jira.Err?
    ensures var calls := SummaryCommandCalls(channel, w, pages, history, jira, consolidate);
      calls[|calls| - 1] == Post(channel, JiraErrorText) &&
      forall k :: 0 <= k < |calls| && calls[k].Post? ==> calls[k].text == InvalidRangeText || calls[k].text == JiraErrorText
  {
    var channels := Listing(pages, []).value;
    OnlyFetches(channels, w.hours);
  }

  /** The summary posted is the consolidation of the listed channels' messages over the window and the issues. */
  lemma SummaryIsPostedLast(channel: string, w: Window, pages: seq<PageReply>, history: HistoryApi,
                            jira: Result<seq<string>>, consolidate: (seq<string>, seq<string>) -> string)
    requires PagesEnd(pages) && Listing(pages, []).Ok? && jira.Ok?
    ensures var calls := SummaryCommandCalls(channel, w, pages, history, jira, consolidate);
      var channels := Listing(pages, []).value;
      calls[|calls| - 1] == Post(channel, consolidate(Gather(channels, history, w.hours), jira.value)) &&
      calls[|calls| - 2] == FetchIssues(JiraQuery)
  {
  }

  /** The window the command text asks for, and the warning posted when it cannot be read. */
  method ReadWindow(channel: string, commandText: string) returns (hours: int, calls: seq<Call>)
    ensures hours == CommandWindow(commandText).hours
    ensures calls == if CommandWindow(commandText).invalid then [Post(channel, InvalidRangeText)] else []
  {
    hours := 24;
    calls := [];
    var text := TrimSpace(commandText);
    if text != "" {
      var parsed := ParseCommandDuration(text);
      if parsed.Err? {
        calls := [Post(channel, InvalidRangeText)];
        hours := 24;
      } else {
        hours := parsed.value;
      }
    }
  }

  /** The loop over the listed channels: a history request each, skipping channels whose history fails. */
  method FetchAll(client: Client, channels: seq<string>, history: HistoryApi, hours: int)
    returns (calls: seq<Call>, all: seq<string>)
    ensures calls == FlatMap(channels, HistoryFetch(hours))
    ensures all == Gather(channels, history, hours)
  {
    calls := [];
    all := [];
    for i := 0 to |channels|
      invariant calls == FlatMap(channels[..i], HistoryFetch(hours))
      invariant all == Gather(channels[..i], history, hours)
    {
      assert channels[..i + 1][..i] == channels[..i];
      assert channels[..i + 1][i] == channels[i];
      calls := calls + [FetchHistory(channels[i], hours)];
      var fetched := client.GetConversationHistory(history(channels[i], hours));
      if fetched.Err? {
        assert all + [] == all;
        continue;
      }
      all := all + fetched.value;
    }
    assert channels[..|channels|] == channels;
  }

  /**
   * processSummaryCommand, with the Slack client, the listing replies, the
   * channel histories, the Jira reply and the consolidation step given.
   */
  method ProcessSummaryCommand(channel: string, commandText: string, client: Client, pages: seq<PageReply>,
                               history: HistoryApi, jira: Result<seq<string>>,
                               consolidate: (seq<string>, seq<string>) -> string)
    returns (calls: seq<Call>)
    requires PagesEnd(pages)
    ensures calls == SummaryCommandCalls(channel, CommandWindow(commandText), pages, history, jira, consolidate)
  {
    var hours, warning := ReadWindow(channel, commandText);
    var rest := SummaryRun(channel, hours, client, pages, history, jira, consolidate);
    calls := warning + rest;
  }

  /** The part of processSummaryCommand after the window is settled. */
  method SummaryRun(channel: string, hours: int, client: Client, pages: seq<PageReply>,
                    history: HistoryApi, jira: Result<seq<string>>,
                    consolidate: (seq<string>, seq<string>) -> string)
    returns (calls: seq<Call>)
    requires PagesEnd(pages)
    ensures calls == RunCalls(channel, hours, pages, history, jira, consolidate)
  {
    var listing, _ := client.GetPublicChannels(pages);
    if listing.Err? {
      return [Post(channel, ChannelsErrorText)];
    }
    var fetches, all := FetchAll(client, listing.value, history, hours);
    calls := fetches + [FetchIssues(JiraQuery)];
    if jira.Err? {
      calls := calls + [Post(channel, JiraErrorText)];
      return;
    }
    var summary := consolidate(all, jira.value);
    calls := calls + [Post(channel, summary)];
  }
}
