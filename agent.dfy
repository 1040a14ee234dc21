/**
 * The agent: routes a direct message by keyword, summarises the member
 * channels, lists recent mentions, assembles conversational prompts, and keeps
 * one summary per user that a later conversational turn consumes once. The
 * generation service is a parameter `generate` from prompt to reply.
 */
module Agent {
  import opened Text
  import opened SlackClient

  /** What the generation service answers for a prompt: its text, and whether it reported an error. */
  datatype Generated = Generated(text: string, failed: bool)

  type Generator = string -> Generated

  /** A reply to the user together with the prompt sent to the generation service, if one was sent. */
  datatype Answer = Answer(text: string, prompt: Option<string>)

  function Lookup(m: map<string, string>, key: string): Option<string>
  {
    if key in m then Some(m[key]) else None
  }

  // ---------------------------------------------------------------------------
  // Intent routing

  datatype Intent = SummaryIntent | MentionsIntent | ConversationIntent

  /** The keyword test of ProcessDM, on the lower-cased message: summary keywords first. */
  function Classify(message: string): Intent
  {
    var lower := ToLower(message);
    if Contains(lower, "summary") || Contains(lower, "summarize") then SummaryIntent
    else if Contains(lower, "mentions") || Contains(lower, "tagged") || Contains(lower, "missed") then MentionsIntent
    else ConversationIntent
  }

  /** The case of the message does not matter. */
  lemma ClassifyIgnoresCase(message: string)
    ensures Classify(ToLower(message)) == Classify(message)
  {
    LowerTwice(message);
  }

  /** A summary keyword in any case, anywhere in the message, wins over everything else. */
  lemma SummaryKeywordWins(a: string, w: string, b: string)
    requires ToLower(w) == "summary" || ToLower(w) == "summarize"
    ensures Classify(a + w + b) == SummaryIntent
  {
    ToLowerConcat(a + w, b);
    ToLowerConcat(a, w);
    ContainsMiddle(ToLower(a), ToLower(w), ToLower(b));
  }

  /** Without a summary keyword, a mention keyword in any case makes it a mentions request. */
  lemma MentionKeywordRoutes(a: string, w: string, b: string)
    requires ToLower(w) == "mentions" || ToLower(w) == "tagged" || ToLower(w) == "missed"
    requires !Contains(ToLower(a + w + b), "summary") && !Contains(ToLower(a + w + b), "summarize")
    ensures Classify(a + w + b) == MentionsIntent
  {
    ToLowerConcat(a + w, b);
    ToLowerConcat(a, w);
    ContainsMiddle(ToLower(a), ToLower(w), ToLower(b));
  }

  lemma UpperCaseSummaryExample()
    ensures Classify("Give me a SUMMARY") == SummaryIntent
  {
    assert ToLower("SUMMARY") == "summary";
    SummaryKeywordWins("Give me a ", "SUMMARY", "");
    assert "Give me a " + "SUMMARY" + "" == "Give me a SUMMARY";
  }

  // ---------------------------------------------------------------------------
  // The day count of performSummary: the first match of `(\d+)\s*d`

  /**
   * `(\d+)\s*d` as a pattern: digits `s[p..e]`, white space `s[e..m]`, and a
   * lower-case 'd' at `m`.
   */
  ghost predicate DayPattern(s: string, p: nat, e: nat, m: nat)
  {
    p < e <= m < |s| && AllDigits(s[p..e]) && AllIn(s[e..m], IsRegexSpace) && s[m] == 'd'
  }

  /** A match of the pattern starts with a digit. */
  lemma NoPatternAtNonDigit(s: string, p: nat, e: nat, m: nat)
    requires p < |s| && !IsDigit(s[p])
    ensures !DayPattern(s, p, e, m)
  {
    if p < e <= |s| { assert s[p..e][0] == s[p]; }
  }

  /** The scanner's test for a match starting at `p`: the whole digit run, the white space after it, then 'd'. */
  predicate DayMatchAt(s: string, p: nat)
  {
    p < |s| && IsDigit(s[p]) &&
    var m := RunEnd(s, RunEnd(s, p, IsDigit), IsRegexSpace);
    m < |s| && s[m] == 'd'
  }

  /**
   * A pattern match at `p` is found by the scanner, and its digit group is the
   * whole run of digits from `p`: a shorter group would be followed by a digit.
   */
  lemma PatternIsScanned(s: string, p: nat, e: nat, m: nat)
    requires DayPattern(s, p, e, m)
    ensures DayMatchAt(s, p)
    ensures e == RunEnd(s, p, IsDigit) && m == RunEnd(s, e, IsRegexSpace)
  {
    assert !IsDigit(s[e]) by {
      if e < m { assert s[e..m][0] == s[e]; }
    }
    forall k | p <= k < e ensures IsDigit(s[k]) {
      assert s[p..e][k - p] == s[k];
    }
    RunEndIsUnique(s, p, IsDigit, e);
    forall k | e <= k < m ensures IsRegexSpace(s[k]) {
      assert s[e..m][k - e] == s[k];
    }
    RunEndIsUnique(s, e, IsRegexSpace, m);
  }

  /** Every match the scanner reports is a pattern match. */
  lemma ScannedIsPattern(s: string, p: nat)
    requires DayMatchAt(s, p)
    ensures DayPattern(s, p, RunEnd(s, p, IsDigit), RunEnd(s, RunEnd(s, p, IsDigit), IsRegexSpace))
  {
    DigitRunIsDigits(s, p);
    RunInClass(s, RunEnd(s, p, IsDigit), IsRegexSpace);
  }

  /** The leftmost match at or after `from`. */
  function FindDayMatch(s: string, from: nat): (r: Option<nat>)
    ensures r.Some? ==> from <= r.value && DayMatchAt(s, r.value)
    ensures forall q: nat :: from <= q && (r.None? || q < r.value) ==> !DayMatchAt(s, q)
    decreases |s| - from
  {
    if from >= |s| then None
    else if DayMatchAt(s, from) then Some(from)
    else FindDayMatch(s, from + 1)
  }

  /** The leftmost match never starts inside a run of digits. */
  lemma LeftmostMatchStartsRun(s: string)
    requires FindDayMatch(s, 0).Some?
    ensures var p := FindDayMatch(s, 0).value; p == 0 || !IsDigit(s[p - 1])
  {
    var p := FindDayMatch(s, 0).value;
    if p > 0 && IsDigit(s[p - 1]) {
      MatchExtendsLeft(s, p);
      assert false;
    }
  }

  /** A match that starts after a digit also starts at that digit. */
  lemma MatchExtendsLeft(s: string, p: nat)
    requires 0 < p && DayMatchAt(s, p) && IsDigit(s[p - 1])
    ensures DayMatchAt(s, p - 1)
  {
    assert RunEnd(s, p - 1, IsDigit) == RunEnd(s, p, IsDigit);
  }

  const DefaultHours: int := 24

  /** How far back performSummary looks, in hours: days times 24, or 24 when there is no usable count. */
  function SummaryHours(message: string): int
  {
    match FindDayMatch(message, 0)
    case None => DefaultHours
    case Some(p) =>
      DigitRunIsDigits(message, p);
      match Atoi(message[p..RunEnd(message, p, IsDigit)])
      case Err(_) => DefaultHours
      case Ok(days) => days * 24
  }

  /** A match with no match before it is the leftmost one. */
  lemma FirstMatchAt(s: string, p: nat)
    requires DayMatchAt(s, p)
    requires forall q: nat :: q < p ==> !DayMatchAt(s, q)
    ensures FindDayMatch(s, 0) == Some(p)
  {
  }

  /** A match after text with no digits is the leftmost one. */
  lemma FirstMatchAfterNoDigits(s: string, p: nat)
    requires DayMatchAt(s, p)
    requires forall k :: 0 <= k < p ==> !IsDigit(s[k])
    ensures FindDayMatch(s, 0) == Some(p)
  {
    FirstMatchAt(s, p);
  }

  /**
   * When the pattern first matches at `p`, the count is that number of days;
   * a count past the `int` range falls back to 24 hours. Digits before `p`
   * that start no match are skipped.
   */
  lemma SummaryHoursOfMatch(s: string, p: nat, e: nat, m: nat)
    requires DayPattern(s, p, e, m)
    requires forall q: nat, e2: nat, m2: nat :: q < p ==> !DayPattern(s, q, e2, m2)
    ensures SummaryHours(s) == if Decimal(s[p..e]) <= MaxInt then Decimal(s[p..e]) * 24 else DefaultHours
  {
    PatternIsScanned(s, p, e, m);
    forall q: nat | q < p ensures !DayMatchAt(s, q) {
      if DayMatchAt(s, q) {
        ScannedIsPattern(s, q);
      }
    }
    FirstMatchAt(s, p);
  }

  /** A number that is not followed by a 'd' is passed over: "2 x 3d" is three days. */
  lemma LaterMatchExample()
    ensures SummaryHours("2 x 3d") == 72
  {
    var s := "2 x 3d";
    assert !DayMatchAt(s, 0) by {
      assert RunEnd(s, 0, IsDigit) == 1 by { RunEndIsUnique(s, 0, IsDigit, 1); }
      assert RunEnd(s, 1, IsRegexSpace) == 2 by { RunEndIsUnique(s, 1, IsRegexSpace, 2); }
    }
    forall q: nat, e2: nat, m2: nat | q < 4 ensures !DayPattern(s, q, e2, m2) {
      if q == 0 {
        if DayPattern(s, q, e2, m2) {
          PatternIsScanned(s, q, e2, m2);
        }
      } else {
        NoPatternAtNonDigit(s, q, e2, m2);
      }
    }
    assert s[4..5] == "3" && Decimal("3") == 3;
    SummaryHoursOfMatch(s, 4, 5, 5);
  }

  lemma ThreeDaysExample()
    ensures SummaryHours("in 3 days") == 72
  {
    var s := "in 3 days";
    assert s[3..4] == "3" && s[4..5] == " ";
    assert Decimal("3") == 3;
    forall q: nat, e2: nat, m2: nat | q < 3 ensures !DayPattern(s, q, e2, m2) {
      NoPatternAtNonDigit(s, q, e2, m2);
    }
    SummaryHoursOfMatch(s, 3, 4, 5);
  }

  /** The pattern is case-sensitive: an upper-case 'D' is no day count. */
  lemma UpperCaseDayIgnored()
    ensures SummaryHours("3 D") == DefaultHours
  {
    var s := "3 D";
    assert RunEnd(s, 0, IsDigit) == 1 by { RunEndIsUnique(s, 0, IsDigit, 1); }
    assert RunEnd(s, 1, IsRegexSpace) == 2 by { RunEndIsUnique(s, 1, IsRegexSpace, 2); }
    assert !DayMatchAt(s, 0);
    assert !DayMatchAt(s, 1) && !DayMatchAt(s, 2);
  }

  /** Text without a digit looks back 24 hours. */
  lemma NoDigitsDefault(message: string)
    requires forall k :: 0 <= k < |message| ==> !IsDigit(message[k])
    ensures SummaryHours(message) == DefaultHours
  {
  }

  /** Text in which the pattern matches nowhere looks back 24 hours, whatever digits it holds. */
  lemma NoMatchDefault(s: string)
    requires forall p: nat, e: nat, m: nat :: !DayPattern(s, p, e, m)
    ensures SummaryHours(s) == DefaultHours
  {
    if FindDayMatch(s, 0).Some? {
      ScannedIsPattern(s, FindDayMatch(s, 0).value);
      assert false;
    }
  }

  /** "page 2 of 3" holds digits but no day count. */
  lemma DigitsWithoutDayExample()
    ensures SummaryHours("page 2 of 3") == DefaultHours
  {
    var s := "page 2 of 3";
    forall p: nat, e: nat, m: nat ensures !DayPattern(s, p, e, m) {
      if DayPattern(s, p, e, m) {
        PatternIsScanned(s, p, e, m);
      }
    }
    NoMatchDefault(s);
  }

  // ---------------------------------------------------------------------------
  // highlightMentions

  /** The mention markup for a user ID. */
  function Tag(userID: string): string
  {
    "<@" + userID + ">"
  }

  function BoldTag(userID: string): string
  {
    "*" + Tag(userID) + "*"
  }

  /** Every mention of the user, left to right and without overlap, made bold. */
  function Highlight(text: string, userID: string): string
  {
    ReplaceAll(text, Tag(userID), BoldTag(userID))
  }

  /** The inverse rewrite: bold mentions back to plain ones. */
  function Unhighlight(text: string, userID: string): string
  {
    ReplaceAll(text, BoldTag(userID), Tag(userID))
  }

  /** Text that does not mention the user is left as it is. */
  lemma HighlightWithoutMention(text: string, userID: string)
    requires !Contains(text, Tag(userID))
    ensures Highlight(text, userID) == text
  {
    ReplaceAllAbsent(text, Tag(userID), BoldTag(userID));
  }

  /** A mention at the front is made bold, and highlighting goes on after it. */
  lemma HighlightAtMention(text: string, userID: string)
    ensures Highlight(Tag(userID) + text, userID) == BoldTag(userID) + Highlight(text, userID)
  {
    ReplaceAllAtFront(text, Tag(userID), BoldTag(userID));
  }

  /** Text that does not start with a mention keeps its first character, and highlighting goes on after it. */
  lemma HighlightKeepsHead(c: char, text: string, userID: string)
    requires !(|[c] + text| >= |Tag(userID)| && ([c] + text)[..|Tag(userID)|] == Tag(userID))
    ensures Highlight([c] + text, userID) == [c] + Highlight(text, userID)
  {
    ReplaceAllKeepsHead(c, text, Tag(userID), BoldTag(userID));
  }

  /** On text without '*', highlighting loses nothing: un-bolding restores the original. */
  lemma {:induction false} HighlightRoundTrip(text: string, userID: string)
    requires '*' !in text
    ensures Unhighlight(Highlight(text, userID), userID) == text
    decreases |text|
  {
    var tag, bold := Tag(userID), BoldTag(userID);
    if |text| < |tag| {
    } else if text[..|tag|] == tag {
      var rest := text[|tag|..];
      assert forall k :: 0 <= k < |rest| ==> rest[k] == text[|tag| + k];
      HighlightRoundTrip(rest, userID);
      assert Highlight(text, userID) == bold + Highlight(rest, userID);
      ReplaceAllAtFront(Highlight(rest, userID), bold, tag);
      assert tag + rest == text;
    } else {
      var rest := text[1..];
      assert forall k :: 0 <= k < |rest| ==> rest[k] == text[1 + k];
      HighlightRoundTrip(rest, userID);
      assert Highlight(text, userID) == [text[0]] + Highlight(rest, userID);
      var h := [text[0]] + Highlight(rest, userID);
      if |h| >= |bold| { assert h[..|bold|][0] == text[0]; }
      ReplaceAllKeepsHead(text[0], Highlight(rest, userID), bold, tag);
      assert [text[0]] + rest == text;
    }
  }

  /** Highlighting is not idempotent: a second pass bolds an already bold mention again. */
  lemma HighlightTwiceDoubleBolds(userID: string)
    ensures Highlight(Tag(userID), userID) == BoldTag(userID)
    ensures Highlight(Highlight(Tag(userID), userID), userID) == "**" + Tag(userID) + "**"
  {
    var tag := Tag(userID);
    ReplaceAllAtFront([], tag, BoldTag(userID));
    assert tag + [] == tag;
    assert ReplaceAll([], tag, BoldTag(userID)) == [];
    // "*" + tag + "*": the '*' is kept, the tag is bolded, the last '*' is kept.
    assert (['*'] + (tag + "*"))[..|tag|][0] == '*';
    ReplaceAllKeepsHead('*', tag + "*", tag, BoldTag(userID));
    ReplaceAllAtFront("*", tag, BoldTag(userID));
    assert ReplaceAll("*", tag, BoldTag(userID)) == "*";
    assert BoldTag(userID) == ['*'] + (tag + "*");
  }

  /** The in-place loop of performSummary: every message highlighted, order kept. */
  function HighlightAll(messages: seq<string>, userID: string): seq<string>
  {
    seq(|messages|, i requires 0 <= i < |messages| => Highlight(messages[i], userID))
  }

  lemma HighlightAllAppend(a: seq<string>, b: seq<string>, userID: string)
    ensures HighlightAll(a + b, userID) == HighlightAll(a, userID) + HighlightAll(b, userID)
  {
  }

  /** Messages that do not mention the user go to the summary prompt unchanged. */
  lemma HighlightAllWithoutMention(messages: seq<string>, userID: string)
    requires forall i :: 0 <= i < |messages| ==> !Contains(messages[i], Tag(userID))
    ensures HighlightAll(messages, userID) == messages
  {
    forall i | 0 <= i < |messages| ensures Highlight(messages[i], userID) == messages[i] {
      HighlightWithoutMention(messages[i], userID);
    }
  }

  // ---------------------------------------------------------------------------
  // Prompts

  const Preamble: string := "You are a helpful and friendly conversational AI assistant. Continue the following conversation naturally.\n\n"
  const ContextStart: string := "CONTEXT: The user was just shown the following summary after using the /summary command. Use this summary to answer any follow-up questions.\n--- SUMMARY START ---\n"
  const ContextEnd: string := "\n--- SUMMARY END ---\n\n"
  const HistoryStart: string := "--- CONVERSATION HISTORY ---\n"
  const HistoryEnd: string := "--- END HISTORY ---\n\n"
  const AssistantCue: string := "Assistant:"

  /** The CONTEXT block for a stored summary, or nothing. */
  function ContextBlock(summary: Option<string>): string
  {
    match summary
    case None => ""
    case Some(s) => ContextStart + s + ContextEnd
  }

  function HistoryLine(message: string): string
  {
    message + "\n"
  }

  /** The history block: each earlier message on its own line, the new one (if any) as a "User: " line. */
  function HistoryBlock(history: seq<string>, latest: Option<string>): string
  {
    HistoryStart + FlatMap(history, HistoryLine)
    + (if latest.Some? then HistoryLine("User: " + latest.value) else "")
    + HistoryEnd + AssistantCue
  }

  /** The layout of a conversational prompt; `latest` is the user's new message, if the turn has one. */
  function ConversationPrompt(summary: Option<string>, history: seq<string>, latest: Option<string>): string
  {
    Preamble + ContextBlock(summary) + HistoryBlock(history, latest)
  }

  /** ProcessDM's prompt is continueConversation's with the new message as a last "User: " history line. */
  lemma LatestIsLastHistoryLine(summary: Option<string>, history: seq<string>, latest: string)
    ensures ConversationPrompt(summary, history, Some(latest))
         == ConversationPrompt(summary, history + ["User: " + latest], None)
  {
    HistoryBlockWithLatest(history, latest);
  }

  lemma HistoryBlockWithLatest(history: seq<string>, latest: string)
    ensures HistoryBlock(history, Some(latest)) == HistoryBlock(history + ["User: " + latest], None)
  {
    var x := "User: " + latest;
    FlatMapAppend(history, [x], HistoryLine);
    assert [x][..0] == [];
    assert FlatMap([x], HistoryLine) == HistoryLine(x);
    Regroup(HistoryStart, FlatMap(history, HistoryLine), HistoryLine(x), HistoryEnd, AssistantCue);
  }

  /** A stored summary is spliced in between the preamble and the history, between its markers. */
  lemma ContextSplicedAfterPreamble(summary: string, history: seq<string>, latest: Option<string>)
    ensures var plain := ConversationPrompt(None, history, latest);
      |Preamble| <= |plain| &&
      ConversationPrompt(Some(summary), history, latest)
      == plain[..|Preamble|] + ContextStart + summary + ContextEnd + plain[|Preamble|..]
  {
    var hb := HistoryBlock(history, latest);
    var plain := ConversationPrompt(None, history, latest);
    assert Preamble + "" == Preamble;
    assert plain == Preamble + hb;
    assert plain[..|Preamble|] == Preamble && plain[|Preamble|..] == hb;
    Assoc(Preamble, ContextStart, summary);
    Assoc(Preamble, ContextStart + summary, ContextEnd);
  }

  /** The user line of ProcessDM is the line just before the end marker. */
  lemma PromptEndsWithLatest(summary: Option<string>, history: seq<string>, latest: string)
    ensures var p := ConversationPrompt(summary, history, Some(latest));
      var tail := "User: " + latest + "\n" + HistoryEnd + AssistantCue;
      |tail| <= |p| && p[|p| - |tail|..] == tail
  {
    var front := Preamble + ContextBlock(summary);
    var head := HistoryStart + FlatMap(history, HistoryLine);
    var line := HistoryLine("User: " + latest);
    var tail := line + HistoryEnd + AssistantCue;
    Regroup2(HistoryStart, FlatMap(history, HistoryLine), line, HistoryEnd, AssistantCue);
    Assoc(front, head, tail);
    SuffixOfConcat(front + head, tail);
  }

  /** Writes each history message followed by a line break. */
  method WriteHistory(history: seq<string>) returns (text: string)
    ensures text == FlatMap(history, HistoryLine)
  {
    text := "";
    var i := 0;
    while i < |history|
      invariant 0 <= i <= |history| && text == FlatMap(history[..i], HistoryLine)
    {
      assert history[..i + 1][..i] == history[..i];
      text := text + (history[i] + "\n");
      i := i + 1;
    }
    assert history[..i] == history;
  }

  /** Writes a conversational prompt as the strings.Builder sequence does. */
  method BuildConversationPrompt(summary: Option<string>, history: seq<string>, latest: Option<string>) returns (prompt: string)
    ensures prompt == ConversationPrompt(summary, history, latest)
  {
    prompt := Preamble;
    if summary.Some? {
      prompt := prompt + ContextStart;
      prompt := prompt + summary.value;
      prompt := prompt + ContextEnd;
      Assoc(Preamble, ContextStart, summary.value);
      Assoc(Preamble, ContextStart + summary.value, ContextEnd);
    } else {
      assert prompt + "" == prompt;
    }
    ghost var front := prompt;
    var lines := WriteHistory(history);
    var line := if latest.Some? then "User: " + latest.value + "\n" else "";
    prompt := prompt + HistoryStart;
    prompt := prompt + lines;
    prompt := prompt + line;
    prompt := prompt + HistoryEnd;
    prompt := prompt + AssistantCue;
    ghost var hb := HistoryStart + lines;
    Assoc(front, HistoryStart, lines);
    Assoc(front, hb, line);
    Assoc(front, hb + line, HistoryEnd);
    Assoc(front, hb + line + HistoryEnd, AssistantCue);
  }

  /** The prompt for an @mention of the bot. */
  function MentionPrompt(message: string): string
  {
    "A user mentioned the bot with the following message. Please provide a helpful response.\n\nUser message: \"" + message + "\""
  }

  function ListItem(item: string): string
  {
    "- " + item + "\n"
  }

  /** Writes one "- " line per item, in order. */
  method WriteItems(items: seq<string>) returns (text: string)
    ensures text == FlatMap(items, ListItem)
  {
    text := "";
    var i := 0;
    while i < |items|
      invariant 0 <= i <= |items| && text == FlatMap(items[..i], ListItem)
    {
      assert items[..i + 1][..i] == items[..i];
      text := text + "- " + items[i] + "\n";
      i := i + 1;
    }
    assert items[..i] == items;
  }

  // ---------------------------------------------------------------------------
  // performSummary

  const NoChannelsText: string := "Sorry, I couldn't fetch the list of public channels."
  const NoMessagesText: string := "I couldn't find any messages in the public channels for the specified time period."
  const SummaryFailedText: string := "I was able to fetch the messages, but I encountered an error while generating the summary."
  const SummaryHeader: string := "Please provide a concise summary of the following Slack messages:\n\n"

  /** The messages performSummary collects: the member channels' histories, highlighted for the user. */
  function SummaryMessages(userID: string, channels: seq<string>, history: HistoryApi, hours: int): seq<string>
  {
    HighlightAll(Gather(channels, history, hours), userID)
  }

  /** What performSummary answers, and the prompt it sends. */
  function SummaryAnswer(userID: string, message: string, ws: Workspace, generate: Generator): Answer
    requires PagesEnd(ws.pages)
  {
    match Listing(ws.pages, [])
    case Err(_) => Answer(NoChannelsText, None)
    case Ok(channels) =>
      var messages := SummaryMessages(userID, channels, ws.history, SummaryHours(message));
      if messages == [] then Answer(NoMessagesText, None)
      else
        var prompt := SummaryHeader + FlatMap(messages, ListItem);
        var g := generate(prompt);
        Answer(if g.failed then SummaryFailedText else g.text, Some(prompt))
  }

  /** The three outcomes of performSummary; generation is asked exactly when some message was collected. */
  lemma SummaryOutcomes(userID: string, message: string, ws: Workspace, generate: Generator)
    requires PagesEnd(ws.pages)
    ensures Listing(ws.pages, []).Err? ==> SummaryAnswer(userID, message, ws, generate) == Answer(NoChannelsText, None)
    ensures Listing(ws.pages, []).Ok? ==>
      var messages := Gather(Listing(ws.pages, []).value, ws.history, SummaryHours(message));
      (messages == [] <==> SummaryAnswer(userID, message, ws, generate).prompt.None?) &&
      (messages == [] ==> SummaryAnswer(userID, message, ws, generate).text == NoMessagesText)
  {
  }

  /** The prompt lists a channel's messages after those of the channels before it, skipping channels that fail. */
  lemma {:induction false} SummaryMessagesByChannel(userID: string, a: seq<string>, c: string, b: seq<string>, history: HistoryApi, hours: int)
    ensures history(c, hours).Err? ==>
      SummaryMessages(userID, a + [c] + b, history, hours) == SummaryMessages(userID, a, history, hours) + SummaryMessages(userID, b, history, hours)
    ensures history(c, hours).Ok? ==>
      SummaryMessages(userID, a + [c] + b, history, hours)
      == SummaryMessages(userID, a, history, hours) + HighlightAll(Reversed(history(c, hours).value), userID) + SummaryMessages(userID, b, history, hours)
  {
    GatherChannel(a, c, b, history, hours);
    HighlightAllAppend(Gather(a, history, hours), Gather(b, history, hours), userID);
    if history(c, hours).Ok? {
      var r := Reversed(history(c, hours).value);
      HighlightAllAppend(Gather(a, history, hours) + r, Gather(b, history, hours), userID);
      HighlightAllAppend(Gather(a, history, hours), r, userID);
    }
  }

  // ---------------------------------------------------------------------------
  // findUserMentions

  const TokenTypeText: string := "I can't search for your mentions because I'm missing the `search:read` permission or the token type is not allowed. Please ensure I have the `search:read` scope and that your workspace allows bot tokens for search."
  const MissingScopeText: string := "I can't search for your mentions because I'm missing the `search:read` permission. Please add it to my Slack App configuration."
  const SearchFailedText: string := "Sorry, I couldn't search for your mentions."
  const NoMentionsText: string := "I couldn't find any recent mentions of you."
  const MentionsHeader: string := "Here are some recent mentions of you:\n\n"
  const MentionLimit: nat := 5

  /** The reply to a search error; the token-type test comes before the scope test. */
  function SearchErrorText(error: string): string
  {
    if Contains(error, "not_allowed_token_type") then TokenTypeText
    else if Contains(error, "missing_scope") then MissingScopeText
    else SearchFailedText
  }

  /** One rendered match. */
  function MentionLine(userID: string, m: SearchMatch): string
  {
    "- In #" + m.channelName + ", <@" + m.user + "> said: \"" + Highlight(m.text, userID) + "\"\n"
  }

  function MoreNotice(more: nat): string
  {
    "\n...and " + Itoa(more) + " more. Ask me to summarize if you want to know more!"
  }

  function MentionLines(userID: string, matches: seq<SearchMatch>): string
  {
    FlatMap(matches, m => MentionLine(userID, m))
  }

  /** The listing of a non-empty match list: at most five lines, then a notice of how many were left out. */
  function MentionList(userID: string, matches: seq<SearchMatch>): string
  {
    if |matches| <= MentionLimit then MentionsHeader + MentionLines(userID, matches)
    else MentionsHeader + MentionLines(userID, matches[..MentionLimit]) + MoreNotice(|matches| - MentionLimit)
  }

  /** What findUserMentions answers for a search reply. */
  function MentionsReply(userID: string, reply: SearchReply): string
  {
    match reply
    case SearchFailed(e) => SearchErrorText(e)
    case Searched(None) => NoMentionsText
    case Searched(Some(matches)) => if matches == [] then NoMentionsText else MentionList(userID, matches)
  }

  /** Past the fifth match only the count matters, and the notice carries the count of the rest. */
  lemma MentionsBeyondLimit(userID: string, matches: seq<SearchMatch>)
    requires |matches| > MentionLimit
    ensures MentionsReply(userID, Searched(Some(matches)))
         == MentionsReply(userID, Searched(Some(matches[..MentionLimit]))) + MoreNotice(|matches| - MentionLimit)
  {
    var front := matches[..MentionLimit];
    assert |front| == MentionLimit && front != [];
    assert MentionsReply(userID, Searched(Some(front))) == MentionsHeader + MentionLines(userID, front);
  }

  /** Two searches that agree on the first five matches and on the count get the same reply. */
  lemma MentionsDependOnFirstFive(userID: string, m1: seq<SearchMatch>, m2: seq<SearchMatch>)
    requires |m1| == |m2| && m1[..if |m1| < MentionLimit then |m1| else MentionLimit] == m2[..if |m2| < MentionLimit then |m2| else MentionLimit]
    ensures MentionsReply(userID, Searched(Some(m1))) == MentionsReply(userID, Searched(Some(m2)))
  {
    if |m1| <= MentionLimit {
      WholePrefix(m1, m2);
    } else {
      assert m1[..MentionLimit] == m2[..MentionLimit];
      MentionListOfLong(userID, m1);
      MentionListOfLong(userID, m2);
    }
  }

  lemma MentionListOfLong(userID: string, ms: seq<SearchMatch>)
    requires |ms| > MentionLimit
    ensures MentionsReply(userID, Searched(Some(ms)))
         == MentionsHeader + MentionLines(userID, ms[..MentionLimit]) + MoreNotice(|ms| - MentionLimit)
  {
  }

  /** An error naming both problems is reported as the token-type problem. */
  lemma TokenTypeCheckedFirst(e: string, userID: string)
    requires Contains(e, "not_allowed_token_type")
    ensures MentionsReply(userID, SearchFailed(e)) == TokenTypeText
    ensures MentionsReply(userID, SearchFailed(e + "missing_scope")) == TokenTypeText
  {
    var i :| 0 <= i <= |e| - |"not_allowed_token_type"| && OccursAt(e, "not_allowed_token_type", i);
    assert (e + "missing_scope")[i..i + |"not_allowed_token_type"|] == e[i..i + |"not_allowed_token_type"|];
    assert OccursAt(e + "missing_scope", "not_allowed_token_type", i);
  }

  // ---------------------------------------------------------------------------
  // ConsolidateInfo

  const ConsolidateHeader: string := "Please provide a concise summary of the following activities. Include both Slack messages and Jira issues.\n\n"
  const NoActivitiesText: string := "There were no activities to summarize in the given time period."
  const ConsolidateFailedText: string := "I was able to fetch the activities, but I encountered an error while generating the summary."

  /** The activities prompt: a Slack section only if there are messages, a Jira section only if there are issues. */
  function ConsolidatePrompt(userID: string, messages: seq<string>, issues: seq<string>): string
  {
    ConsolidateHeader + SlackSection(userID, messages) + JiraSection(issues)
  }

  function SlackSection(userID: string, messages: seq<string>): string
  {
    if messages != [] then "Slack Conversations:\n" + FlatMap(HighlightAll(messages, userID), ListItem) else ""
  }

  function JiraSection(issues: seq<string>): string
  {
    if issues != [] then "\nJira Issues:\n" + FlatMap(issues, ListItem) else ""
  }

  function ConsolidateAnswer(userID: string, messages: seq<string>, issues: seq<string>, generate: Generator): Answer
  {
    if messages == [] && issues == [] then Answer(NoActivitiesText, None)
    else
      var prompt := ConsolidatePrompt(userID, messages, issues);
      var g := generate(prompt);
      Answer(if g.failed then ConsolidateFailedText else g.text, Some(prompt))
  }

  /** The fixed "no activities" reply comes exactly when both lists are empty, and then nothing is generated. */
  lemma NoActivitiesExactlyWhenEmpty(userID: string, messages: seq<string>, issues: seq<string>, generate: Generator)
    ensures ConsolidateAnswer(userID, messages, issues, generate).prompt.None? <==> messages == [] && issues == []
    ensures messages == [] && issues == [] ==> ConsolidateAnswer(userID, messages, issues, generate).text == NoActivitiesText
  {
  }

  /** With only issues, the prompt is the header and the Jira section; with only messages, the header and the Slack section. */
  lemma ConsolidateSections(userID: string, messages: seq<string>, issues: seq<string>)
    ensures messages == [] ==>
      (ConsolidatePrompt(userID, messages, issues) == ConsolidateHeader + JiraSection(issues))
    ensures issues == [] ==>
      (ConsolidatePrompt(userID, messages, issues) == ConsolidateHeader + SlackSection(userID, messages))
  {
    assert ConsolidateHeader + "" == ConsolidateHeader;
    assert SlackSection(userID, messages) + "" == SlackSection(userID, messages);
    assert ConsolidateHeader + SlackSection(userID, messages) + "" == ConsolidateHeader + SlackSection(userID, messages);
  }

  // ---------------------------------------------------------------------------
  // The processor and its summary store

  class Processor {
    const slack: Client
    /** The last summary shown to each user, waiting to be used as context once. */
    var lastSummary: map<string, string>

    constructor (slack: Client)
      ensures this.slack == slack && lastSummary == map[]
    {
      this.slack := slack;
      lastSummary := map[];
    }

    /** SetLastSummary: overwrites the user's entry and touches no other. */
    method SetLastSummary(userID: string, summary: string)
      modifies this`lastSummary
      ensures lastSummary == old(lastSummary)[userID := summary]
    {
      lastSummary := lastSummary[userID := summary];
    }

    /** The read-then-delete of a conversational turn. */
    method TakeSummary(userID: string) returns (summary: Option<string>)
      modifies this`lastSummary
      ensures summary == Lookup(old(lastSummary), userID)
      ensures lastSummary == old(lastSummary) - {userID}
    {
      if userID in lastSummary {
        summary := Some(lastSummary[userID]);
        lastSummary := lastSummary - {userID};
      } else {
        summary := None;
        assert lastSummary - {userID} == lastSummary;
      }
    }

    /** ProcessMessage: a one-shot reply to an @mention; the summary store is not touched. */
    method ProcessMessage(message: string, generate: Generator) returns (reply: string)
      ensures reply == generate(MentionPrompt(message)).text
    {
      var prompt := MentionPrompt(message);
      reply := generate(prompt).text;
    }

    /**
     * ProcessDM: a summary or mentions request is answered without touching the
     * store; any other message is a conversational turn that consumes the user's
     * stored summary.
     */
    method ProcessDM(userID: string, history: seq<string>, latest: string, ws: Workspace, generate: Generator)
      returns (reply: string)
      requires PagesEnd(ws.pages)
      modifies this`lastSummary
      ensures Classify(latest) == SummaryIntent ==>
        reply == SummaryAnswer(userID, latest, ws, generate).text && lastSummary == old(lastSummary)
      ensures Classify(latest) == MentionsIntent ==>
        reply == MentionsReply(userID, ws.search(Tag(userID))) && lastSummary == old(lastSummary)
      ensures Classify(latest) == ConversationIntent ==>
        reply == generate(ConversationPrompt(Lookup(old(lastSummary), userID), history, Some(latest))).text &&
        lastSummary == old(lastSummary) - {userID}
    {
      var lower := ToLower(latest);
      if Contains(lower, "summary") || Contains(lower, "summarize") {
        var answer := PerformSummary(userID, latest, ws, generate);
        return answer.text;
      }
      if Contains(lower, "mentions") || Contains(lower, "tagged") || Contains(lower, "missed") {
        reply := FindUserMentions(userID, ws);
        return;
      }
      var summary := TakeSummary(userID);
      var prompt := BuildConversationPrompt(summary, history, Some(latest));
      reply := generate(prompt).text;
    }

    /** continueConversation: the same turn without a new user line. */
    method ContinueConversation(userID: string, history: seq<string>, generate: Generator) returns (reply: string)
      modifies this`lastSummary
      ensures reply == generate(ConversationPrompt(Lookup(old(lastSummary), userID), history, None)).text
      ensures lastSummary == old(lastSummary) - {userID}
    {
      var summary := TakeSummary(userID);
      var prompt := BuildConversationPrompt(summary, history, None);
      reply := generate(prompt).text;
    }

    /** performSummary: channel listing, per-channel histories with failures skipped, highlighting, one prompt. */
    method PerformSummary(userID: string, message: string, ws: Workspace, generate: Generator) returns (answer: Answer)
      requires PagesEnd(ws.pages)
      ensures answer == SummaryAnswer(userID, message, ws, generate)
    {
      var hours := SummaryHours(message);
      var listing, _ := slack.GetPublicChannels(ws.pages);
      if listing.Err? {
        return Answer(NoChannelsText, None);
      }
      var all := CollectMessages(slack, userID, listing.value, ws.history, hours);
      if all == [] {
        return Answer(NoMessagesText, None);
      }
      var items := WriteItems(all);
      var prompt := SummaryHeader + items;
      var g := generate(prompt);
      if g.failed {
        return Answer(SummaryFailedText, Some(prompt));
      }
      return Answer(g.text, Some(prompt));
    }

    /** findUserMentions: searches for the user's tag and renders the reply. */
    method FindUserMentions(userID: string, ws: Workspace) returns (reply: string)
      ensures reply == MentionsReply(userID, ws.search(Tag(userID)))
    {
      var query := "<@" + userID + ">";
      var result := ws.search(query);
      if result.SearchFailed? {
        var e := result.error;
        if Contains(e, "not_allowed_token_type") {
          return TokenTypeText;
        }
        if Contains(e, "missing_scope") {
          return MissingScopeText;
        }
        return SearchFailedText;
      }
      if result.matches.None? || result.matches.value == [] {
        return NoMentionsText;
      }
      reply := WriteMentions(userID, result.matches.value);
    }

    /** ConsolidateInfo: the activities prompt, unless there is nothing to summarise. */
    method ConsolidateInfo(userID: string, messages: seq<string>, issues: seq<string>, generate: Generator) returns (answer: Answer)
      ensures answer == ConsolidateAnswer(userID, messages, issues, generate)
    {
      var prompt := ConsolidateHeader;
      if |messages| > 0 {
        var items := WriteItems(HighlightAll(messages, userID));
        prompt := prompt + "Slack Conversations:\n";
        prompt := prompt + items;
        Assoc(ConsolidateHeader, "Slack Conversations:\n", items);
      } else {
        assert prompt + "" == prompt;
      }
      ghost var front := prompt;
      assert front == ConsolidateHeader + SlackSection(userID, messages);
      if |issues| > 0 {
        var items := WriteItems(issues);
        prompt := prompt + "\nJira Issues:\n";
        prompt := prompt + items;
        Assoc(front, "\nJira Issues:\n", items);
      } else {
        assert prompt + "" == prompt;
      }
      if |messages| == 0 && |issues| == 0 {
        return Answer(NoActivitiesText, None);
      }
      var g := generate(prompt);
      if g.failed {
        return Answer(ConsolidateFailedText, Some(prompt));
      }
      return Answer(g.text, Some(prompt));
    }
  }

  /** The in-place loop of performSummary that highlights each message of one channel. */
  method HighlightEach(raw: seq<string>, userID: string) returns (messages: seq<string>)
    ensures messages == HighlightAll(raw, userID)
  {
    messages := raw;
    for j := 0 to |messages|
      invariant |messages| == |raw|
      invariant forall k :: 0 <= k < j ==> messages[k] == Highlight(raw[k], userID)
      invariant forall k :: j <= k < |raw| ==> messages[k] == raw[k]
    {
      messages := messages[j := Highlight(messages[j], userID)];
    }
  }

  /** The channel loop of performSummary: each channel's history, failures skipped, highlighted. */
  method CollectMessages(client: Client, userID: string, channels: seq<string>, history: HistoryApi, hours: int)
    returns (all: seq<string>)
    ensures all == SummaryMessages(userID, channels, history, hours)
  {
    all := [];
    for i := 0 to |channels|
      invariant all == SummaryMessages(userID, channels[..i], history, hours)
    {
      assert channels[..i + 1][..i] == channels[..i];
      assert channels[..i + 1][i] == channels[i];
      var fetched := client.GetConversationHistory(history(channels[i], hours));
      if fetched.Err? {
        HighlightAllAppend(Gather(channels[..i], history, hours), [], userID);
        assert all + [] == all;
        continue;
      }
      var messages := HighlightEach(fetched.value, userID);
      HighlightAllAppend(Gather(channels[..i], history, hours), fetched.value, userID);
      all := all + messages;
    }
    assert channels[..|channels|] == channels;
  }

  /** The match loop of findUserMentions: at most five lines, then the notice of how many more there are. */
  method WriteMentions(userID: string, matches: seq<SearchMatch>) returns (reply: string)
    ensures reply == MentionList(userID, matches)
  {
    reply := MentionsHeader;
    var i := 0;
    while i < |matches|
      invariant 0 <= i <= |matches| && i <= MentionLimit
      invariant reply == MentionsHeader + MentionLines(userID, matches[..i])
    {
      if i >= MentionLimit {
        reply := reply + MoreNotice(|matches| - MentionLimit);
        return;
      }
      assert matches[..i + 1][..i] == matches[..i];
      Assoc(MentionsHeader, MentionLines(userID, matches[..i]), MentionLine(userID, matches[i]));
      reply := reply + MentionLine(userID, matches[i]);
      i := i + 1;
    }
    assert matches[..i] == matches;
  }

  /**
   * A summary stored for a user is the CONTEXT of that user's next
   * conversational turn and of no later one. The generation service here
   * echoes its prompt, so the replies are the prompts.
   */
  method SummaryIsUsedOnce(slack: Client, userID: string, summary: string, history: seq<string>, latest: string, ws: Workspace)
    returns (first: string, second: string)
    requires PagesEnd(ws.pages) && Classify(latest) == ConversationIntent
    ensures first == ConversationPrompt(Some(summary), history, Some(latest))
    ensures second == ConversationPrompt(None, history, Some(latest))
  {
    var p := new Processor(slack);
    var echo := (prompt: string) => Generated(prompt, false);
    p.SetLastSummary(userID, summary);
    first := p.ProcessDM(userID, history, latest, ws, echo);
    second := p.ProcessDM(userID, history, latest, ws, echo);
  }
}
