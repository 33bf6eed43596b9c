/** The deterministic pieces of the chat front end: the filter that removes
    source and file-path lines from an answer, the bounded conversation
    memory, the model badge and the sidebar counters. Rendering is not
    modelled, and neither is the agent the front end calls: its reply is an
    input, either the answer text or the exception it raised. */
module App {

  import opened Text
  import opened Values

  // ---------------------------------------------------------------------
  // The answer filter
  // ---------------------------------------------------------------------

  /** Lower-case fragments that mark a line as a file path or a source note. */
  const Denylist: seq<string> := [
    "f1_2025_circuit_maps",
    "_circuit.webp",
    "source:",
    "image source:",
    "path:",
    "/volumes/",
    "retrieved from:",
    "circuit.webp"
  ]

  /** The slice of `line` at `i` spells `fragment` when letter case is ignored. */
  predicate MatchesIgnoringCase(line: string, fragment: string, i: int)
  {
    0 <= i <= |line| - |fragment| && Lower(line[i..i + |fragment|]) == fragment
  }

  /** Some denylist fragment occurs in the lower-cased line: equivalently,
      some slice of the line spells a fragment when letter case is ignored. */
  predicate Flagged(line: string): (b: bool)
    ensures b <==> exists k, i | 0 <= k < |Denylist| :: MatchesIgnoringCase(line, Denylist[k], i)
  {
    FragmentSlicesIgnoringCase(line);
    exists k | 0 <= k < |Denylist| :: Contains(Lower(line), Denylist[k])
  }

  /** A fragment occurs in the lower-cased line at `i` iff the slice of the
      line at `i` spells it ignoring case. */
  lemma FragmentSlicesIgnoringCase(line: string)
    ensures forall k, i | 0 <= k < |Denylist| ::
      OccursAt(Lower(line), Denylist[k], i) <==> MatchesIgnoringCase(line, Denylist[k], i)
  {
    forall k, i | 0 <= k < |Denylist|
      ensures OccursAt(Lower(line), Denylist[k], i) <==> MatchesIgnoringCase(line, Denylist[k], i)
    {
      if 0 <= i <= |line| - |Denylist[k]| {
        LowerSlice(line, i, i + |Denylist[k]|);
      }
    }
  }

  /** `a` is `b` with some elements dropped, the rest in their original order. */
  predicate Subsequence(a: seq<string>, b: seq<string>)
    decreases |b|
  {
    if |a| == 0 then true
    else if |b| == 0 then false
    else (a[0] == b[0] && Subsequence(a[1..], b[1..])) || Subsequence(a, b[1..])
  }

  /** The lines that survive the filter: exactly the unflagged ones, in order. */
  function KeepLines(lines: seq<string>): (kept: seq<string>)
    ensures forall i :: 0 <= i < |kept| ==> !Flagged(kept[i])
    ensures forall i :: 0 <= i < |lines| ==> (lines[i] in kept <==> !Flagged(lines[i]))
    ensures Subsequence(kept, lines)
  {
    if |lines| == 0 then []
    else if Flagged(lines[0]) then KeepLines(lines[1..])
    else [lines[0]] + KeepLines(lines[1..])
  }

  /** Every unflagged line is kept as many times as it occurs; no flagged line is kept. */
  lemma {:induction false} KeepLinesMultiplicity(lines: seq<string>)
    ensures forall x :: multiset(KeepLines(lines))[x] == if Flagged(x) then 0 else multiset(lines)[x]
    decreases |lines|
  {
    if |lines| > 0 {
      KeepLinesMultiplicity(lines[1..]);
      assert lines == [lines[0]] + lines[1..];
    }
  }

  /** Filtering lines distributes over concatenation: the lines are judged
      one by one, independently of their neighbours. */
  lemma {:induction false} KeepLinesAppend(a: seq<string>, b: seq<string>)
    ensures KeepLines(a + b) == KeepLines(a) + KeepLines(b)
    decreases |a|
  {
    if |a| == 0 {
      assert a + b == b;
    } else {
      assert (a + b)[0] == a[0];
      assert (a + b)[1..] == a[1..] + b;
      KeepLinesAppend(a[1..], b);
    }
  }

  /** The filter applied to an answer before it is shown: empty content is
      left alone; otherwise the flagged lines are dropped, the rest rejoined
      with newlines and the result stripped. No denylist fragment survives
      anywhere in the output, in any letter case. */
  function FilterContent(content: string): (r: string)
    ensures content == "" ==> r == ""
    ensures !Flagged(r)
  {
    if content == "" then ""
    else
      var kept := KeepLines(Split(content, '\n'));
      JoinOfCleanLinesIsClean(kept);
      var joined := Join(kept, '\n');
      var stripped := Strip(joined);
      CleanSubstring(joined, stripped);
      stripped
  }

  lemma NoNewlineInDenylist()
    ensures forall k :: 0 <= k < |Denylist| ==> '\n' !in Denylist[k]
  {
  }

  /** A substring of an unflagged string is unflagged. */
  lemma CleanSubstring(s: string, t: string)
    requires Contains(s, t) && !Flagged(s)
    ensures !Flagged(t)
  {
    ContainsLower(s, t);
    forall k | 0 <= k < |Denylist|
      ensures !Contains(Lower(t), Denylist[k])
    {
      if Contains(Lower(t), Denylist[k]) {
        ContainsTransitive(Lower(s), Lower(t), Denylist[k]);
      }
    }
  }

  /** Joining unflagged lines with newlines gives an unflagged string: no
      fragment spans a line break, because none holds a newline. */
  lemma {:induction false} JoinOfCleanLinesIsClean(lines: seq<string>)
    requires forall i :: 0 <= i < |lines| ==> !Flagged(lines[i])
    ensures !Flagged(Join(lines, '\n'))
    decreases |lines|
  {
    if |lines| == 0 {
      assert Lower("") == "";
      forall k | 0 <= k < |Denylist|
        ensures !Contains(Lower(""), Denylist[k])
      {
        assert |Denylist[k]| > 0;
      }
    } else if |lines| > 1 {
      var rest := Join(lines[1..], '\n');
      JoinOfCleanLinesIsClean(lines[1..]);
      LowerConcat(lines[0] + ['\n'], rest);
      LowerConcat(lines[0], ['\n']);
      assert Lower(['\n']) == ['\n'];
      NoNewlineInDenylist();
      forall k | 0 <= k < |Denylist|
        ensures !Contains(Lower(Join(lines, '\n')), Denylist[k])
      {
        assert !Flagged(lines[0]);
        if Contains(Lower(Join(lines, '\n')), Denylist[k]) {
          ContainsAcrossSeparator(Lower(lines[0]), '\n', Lower(rest), Denylist[k]);
        }
      }
    }
  }

  /** Lines that are all unflagged are all kept. */
  lemma {:induction false} KeepAllClean(lines: seq<string>)
    requires forall i :: 0 <= i < |lines| ==> !Flagged(lines[i])
    ensures KeepLines(lines) == lines
    decreases |lines|
  {
    if |lines| > 0 {
      KeepAllClean(lines[1..]);
    }
  }

  /** Filtering twice is filtering once. */
  lemma FilterIdempotent(content: string)
    ensures FilterContent(FilterContent(content)) == FilterContent(content)
  {
    var r := FilterContent(content);
    if r != "" {
      var lines := Split(r, '\n');
      forall i | 0 <= i < |lines|
        ensures !Flagged(lines[i])
      {
        JoinContainsPart(lines, '\n', i);
        CleanSubstring(r, lines[i]);
      }
      KeepAllClean(lines);
      if content != "" {
        StripIdempotent(Join(KeepLines(Split(content, '\n')), '\n'));
      }
    }
  }

  /** No unflagged line is lost: its stripped text occurs in the output. */
  lemma UnflaggedLineSurvives(content: string, i: int)
    requires content != ""
    requires 0 <= i < |Split(content, '\n')| && !Flagged(Split(content, '\n')[i])
    ensures Contains(FilterContent(content), Strip(Split(content, '\n')[i]))
  {
    var lines := Split(content, '\n');
    var kept := KeepLines(lines);
    var j :| 0 <= j < |kept| && kept[j] == lines[i];
    JoinContainsPart(kept, '\n', j);
    var joined := Join(kept, '\n');
    var p :| 0 <= p <= |joined| - |kept[j]| && OccursAt(joined, kept[j], p);
    StripPreservesContainment(joined, kept[j], p);
  }

  // ---------------------------------------------------------------------
  // Conversation memory
  // ---------------------------------------------------------------------

  datatype Role = User | Assistant

  datatype ChatMessage = ChatMessage(role: Role, content: string)

  /** The memory keeps at most this many messages (ten exchanges). */
  const HistoryLimit := 20

  function Min(a: int, b: int): int
  {
    if a <= b then a else b
  }

  /** The user message and the assistant message of one exchange. */
  function ExchangeMessages(prompt: string, answer: string): seq<ChatMessage>
  {
    [ChatMessage(User, prompt), ChatMessage(Assistant, answer)]
  }

  /** `s` ends with `h`. */
  predicate EndsWith(s: seq<ChatMessage>, h: seq<ChatMessage>)
  {
    |h| <= |s| && s[|s| - |h|..] == h
  }

  /** The memory after a successful exchange: the new pair is appended and,
      past the limit, only the most recent messages are kept. */
  function RecordExchange(history: seq<ChatMessage>, prompt: string, answer: string): (h: seq<ChatMessage>)
    ensures |h| == Min(|history| + 2, HistoryLimit)
  {
    var full := history + ExchangeMessages(prompt, answer);
    if |full| > HistoryLimit then full[|full| - HistoryLimit..] else full
  }

  /** The memory after an exchange is the tail of the old memory followed by
      the new pair, and always ends with that pair. */
  lemma RecordExchangeKeepsLatest(history: seq<ChatMessage>, prompt: string, answer: string)
    ensures var h := RecordExchange(history, prompt, answer);
      EndsWith(history + ExchangeMessages(prompt, answer), h) && h[|h| - 2..] == ExchangeMessages(prompt, answer)
  {
  }

  /** One question and the answer that was shown for it. */
  datatype Exchange = Exchange(prompt: string, answer: string)

  /** Every message of a run of exchanges, in order. */
  function Transcript(xs: seq<Exchange>): (t: seq<ChatMessage>)
    ensures |t| == 2 * |xs|
  {
    if |xs| == 0 then []
    else Transcript(xs[..|xs| - 1]) + ExchangeMessages(xs[|xs| - 1].prompt, xs[|xs| - 1].answer)
  }

  /** The memory after a run of successful exchanges, the last one recorded last. */
  function Replay(history: seq<ChatMessage>, xs: seq<Exchange>): seq<ChatMessage>
  {
    if |xs| == 0 then history
    else RecordExchange(Replay(history, xs[..|xs| - 1]), xs[|xs| - 1].prompt, xs[|xs| - 1].answer)
  }

  /** The last `HistoryLimit` messages of `s`, or all of them when there are fewer. */
  function Window(s: seq<ChatMessage>): (w: seq<ChatMessage>)
    ensures |w| == Min(|s|, HistoryLimit) && EndsWith(s, w)
  {
    s[|s| - Min(|s|, HistoryLimit)..]
  }

  /** The memory is a sliding window: after any run of exchanges it holds
      exactly the last `HistoryLimit` messages of everything said (or all of
      them, when there are fewer). */
  lemma {:induction false} ReplayIsWindow(history: seq<ChatMessage>, xs: seq<Exchange>)
    requires |history| <= HistoryLimit
    ensures Replay(history, xs) == Window(history + Transcript(xs))
    decreases |xs|
  {
    if |xs| == 0 {
      assert history + Transcript(xs) == history;
    } else {
      var init, last := xs[..|xs| - 1], xs[|xs| - 1];
      var pair := ExchangeMessages(last.prompt, last.answer);
      var before := history + Transcript(init);
      assert Replay(history, init) == Window(before) by {
        ReplayIsWindow(history, init);
      }
      assert RecordExchange(Window(before), last.prompt, last.answer) == Window(before + pair) by {
        RecordOnWindow(before, last.prompt, last.answer);
      }
      assert history + Transcript(xs) == before + pair by {
        assert Transcript(xs) == Transcript(init) + pair;
      }
    }
  }

  /** Recording an exchange on a window gives the window of the extended transcript. */
  lemma RecordOnWindow(full: seq<ChatMessage>, prompt: string, answer: string)
    ensures RecordExchange(Window(full), prompt, answer) == Window(full + ExchangeMessages(prompt, answer))
  {
    var pair := ExchangeMessages(prompt, answer);
    var w := Window(full);
    var n := Min(|full| + 2, HistoryLimit);
    WindowOfWindow(full, w, pair, n);
    assert RecordExchange(w, prompt, answer) == (w + pair)[|w + pair| - n..];
  }

  /** Cutting a prefix off before appending does not change a short enough suffix. */
  lemma WindowOfWindow(s: seq<ChatMessage>, h: seq<ChatMessage>, t: seq<ChatMessage>, n: int)
    requires EndsWith(s, h)
    requires 0 <= n <= |h| + |t|
    ensures (h + t)[|h + t| - n..] == (s + t)[|s + t| - n..]
  {
    var a, b := (h + t)[|h + t| - n..], (s + t)[|s + t| - n..];
    forall k | 0 <= k < n
      ensures a[k] == b[k]
    {
      var x := |h + t| - n + k;
      if x < |h| {
        assert a[k] == h[x] == s[|s| - |h| + x];
      }
    }
  }

  /** However many exchanges happen, the memory never exceeds the limit. */
  lemma ReplayBounded(xs: seq<Exchange>)
    ensures |Replay([], xs)| == Min(2 * |xs|, HistoryLimit)
  {
    ReplayIsWindow([], xs);
  }

  // ---------------------------------------------------------------------
  // The chat session
  // ---------------------------------------------------------------------

  /** What the agent did with a prompt: answered (with the `content` the
      front end reads from its result), or raised. */
  datatype Reply = Answered(content: string) | Crashed(message: string)

  /** The session state: the displayed messages and the conversation memory. */
  datatype Session = Session(messages: seq<ChatMessage>, history: seq<ChatMessage>)

  const NewSession := Session([], [])

  const ErrorPrefix := "Error processing query: "

  /** Submitting a prompt. The prompt is displayed at once; on an answer the
      reply is displayed and the exchange is recorded in memory; on an
      exception only an error banner is shown and the memory is unchanged. */
  function SubmitPrompt(s: Session, prompt: string, reply: Reply): (r: Session)
    ensures |r.messages| > |s.messages| && r.messages[..|s.messages|] == s.messages
    ensures r.messages[|s.messages|] == ChatMessage(User, prompt)
    ensures reply.Crashed? ==> r.history == s.history && |r.messages| == |s.messages| + 1
    ensures reply.Answered? ==> EndsWith(r.history, ExchangeMessages(prompt, reply.content))
    ensures reply.Answered? ==>
      && r.history == RecordExchange(s.history, prompt, reply.content)
      && r.messages == s.messages + ExchangeMessages(prompt, reply.content)
  {
    var shown := s.messages + [ChatMessage(User, prompt)];
    match reply
    case Answered(content) =>
      Session(shown + [ChatMessage(Assistant, content)], RecordExchange(s.history, prompt, content))
    case Crashed(_) => Session(shown, s.history)
  }

  /** The banner shown when the agent raised. */
  function ErrorBanner(reply: Reply): (banner: Option<string>)
    ensures banner.Some? <==> reply.Crashed?
    ensures reply.Crashed? ==> banner == Some(ErrorPrefix + reply.message)
  {
    match reply
    case Crashed(message) => Some(ErrorPrefix + message)
    case Answered(_) => None
  }

  /** The clear-chat button: both the display and the memory are emptied. */
  function ClearChat(s: Session): (r: Session)
    ensures |r.messages| == 0 && |r.history| == 0
  {
    NewSession
  }

  /** The "Queries" counter: how many displayed messages are the user's. */
  function QueryCount(messages: seq<ChatMessage>): (n: nat)
    ensures n == multiset(Roles(messages))[User]
  {
    assert |messages| > 0 ==> Roles(messages) == [messages[0].role] + Roles(messages[1..]);
    if |messages| == 0 then 0
    else (if messages[0].role == User then 1 else 0) + QueryCount(messages[1..])
  }

  /** The roles of the displayed messages, in order. */
  function Roles(messages: seq<ChatMessage>): (roles: seq<Role>)
    ensures |roles| == |messages|
  {
    seq(|messages|, i requires 0 <= i < |messages| => messages[i].role)
  }

  lemma {:induction false} QueryCountAppend(a: seq<ChatMessage>, b: seq<ChatMessage>)
    ensures QueryCount(a + b) == QueryCount(a) + QueryCount(b)
    decreases |a|
  {
    if |a| == 0 {
      assert a + b == b;
    } else {
      assert (a + b)[1..] == a[1..] + b;
      QueryCountAppend(a[1..], b);
    }
  }

  /** Every submitted prompt counts as one query, whether or not the agent answered. */
  lemma SubmitCountsOneQuery(s: Session, prompt: string, reply: Reply)
    ensures QueryCount(SubmitPrompt(s, prompt, reply).messages) == QueryCount(s.messages) + 1
  {
    var r := SubmitPrompt(s, prompt, reply);
    assert r.messages == s.messages + r.messages[|s.messages|..];
    QueryCountAppend(s.messages, r.messages[|s.messages|..]);
    if reply.Answered? {
      assert r.messages[|s.messages|..] == ExchangeMessages(prompt, reply.content);
      var pair := ExchangeMessages(prompt, reply.content);
      assert pair[1..][1..] == [];
      assert QueryCount(pair[1..]) == 0;
      assert QueryCount(pair) == 1;
    } else {
      assert QueryCount([ChatMessage(User, prompt)]) == 1;
    }
  }

  /** The "Memory" counter: the number of whole exchanges remembered. */
  function MemoryExchanges(s: Session): (n: nat)
    ensures 2 * n <= |s.history| < 2 * n + 2
  {
    |s.history| / 2
  }

  const ActiveIndicator := "🧠 Active"
  const EmptyIndicator := "💤 Empty"

  /** The memory indicator: active exactly when anything is remembered. */
  function MemoryIndicator(s: Session): (text: string)
    ensures text == ActiveIndicator <==> |s.history| > 0
  {
    if |s.history| > 0 then ActiveIndicator else EmptyIndicator
  }

  /** The memory holds whole user/assistant pairs and never exceeds the limit. */
  predicate ValidMemory(history: seq<ChatMessage>)
  {
    && |history| <= HistoryLimit
    && |history| % 2 == 0
    && Alternating(history)
  }

  /** The role expected at position `i` of the memory. */
  function RoleAt(i: int): Role
  {
    if i % 2 == 0 then User else Assistant
  }

  /** User and assistant messages alternate, starting with the user. */
  predicate Alternating(s: seq<ChatMessage>)
  {
    forall i :: 0 <= i < |s| ==> s[i].role == RoleAt(i)
  }

  /** Every reachable session keeps a valid memory: submitting a prompt and
      clearing the chat both preserve it, and an answer adds one exchange
      (until the limit of ten is reached). */
  lemma SubmitPreservesMemory(s: Session, prompt: string, reply: Reply)
    requires ValidMemory(s.history)
    ensures ValidMemory(SubmitPrompt(s, prompt, reply).history)
    ensures MemoryExchanges(SubmitPrompt(s, prompt, reply)) ==
      if reply.Answered? then Min(MemoryExchanges(s) + 1, HistoryLimit / 2) else MemoryExchanges(s)
  {
    if reply.Answered? {
      RecordExchangeKeepsPairs(s.history, prompt, reply.content);
    }
  }

  lemma RecordExchangeKeepsPairs(history: seq<ChatMessage>, prompt: string, answer: string)
    requires ValidMemory(history)
    ensures ValidMemory(RecordExchange(history, prompt, answer))
  {
    var pair := ExchangeMessages(prompt, answer);
    var full := history + pair;
    assert Alternating(full) by {
      forall i | 0 <= i < |full|
        ensures full[i].role == RoleAt(i)
      {
        if i < |history| {
          assert full[i] == history[i];
        }
      }
    }
    var h := RecordExchange(history, prompt, answer);
    if |full| > HistoryLimit {
      assert h == full[|full| - HistoryLimit..];
      AlternatingShift(full, |full| - HistoryLimit);
    } else {
      assert h == full;
    }
    assert |h| % 2 == 0 && |h| <= HistoryLimit;
  }

  /** Dropping an even-length prefix of an alternating sequence leaves an alternating one. */
  lemma AlternatingShift(s: seq<ChatMessage>, off: int)
    requires Alternating(s) && 0 <= off <= |s| && off % 2 == 0
    ensures Alternating(s[off..])
  {
    forall i | 0 <= i < |s| - off
      ensures s[off..][i].role == RoleAt(i)
    {
      assert s[off..][i] == s[off + i];
      assert (off + i) % 2 == i % 2;
    }
  }

  lemma ClearChatResets(s: Session)
    ensures ValidMemory(ClearChat(s).history)
    ensures QueryCount(ClearChat(s).messages) == 0 && MemoryExchanges(ClearChat(s)) == 0
    ensures MemoryIndicator(ClearChat(s)) == EmptyIndicator
  {
  }

  /** With a valid memory the indicator and the counter agree: the memory
      shows as active exactly when at least one exchange is counted. */
  lemma IndicatorMatchesCounter(s: Session)
    requires ValidMemory(s.history)
    ensures MemoryIndicator(s) == ActiveIndicator <==> MemoryExchanges(s) > 0
    ensures MemoryExchanges(s) <= HistoryLimit / 2
  {
  }

  // ---------------------------------------------------------------------
  // The model badge
  // ---------------------------------------------------------------------

  /** The model badge: "N/A" when no model is reported, otherwise the part
      of the model name before the first '-', in upper case. */
  function ModelBadge(model: string): (badge: string)
    ensures model == "N/A" ==> badge == "N/A"
    ensures |badge| <= |model| && badge == Upper(model[..|badge|])
    ensures '-' !in model[..|badge|]
    ensures |badge| < |model| ==> model[|badge|] == '-'
  {
    if model == "N/A" then "N/A"
    else
      var parts := Split(model, '-');
      FirstPartIsPrefix(model, '-');
      Upper(parts[0])
  }

  /** The first part of a split is the longest separator-free prefix. */
  lemma FirstPartIsPrefix(s: string, sep: char)
    ensures var p := Split(s, sep)[0];
      |p| <= |s| && p == s[..|p|] && (|p| < |s| ==> s[|p|] == sep)
  {
    var parts := Split(s, sep);
    if |parts| > 1 {
      assert s == parts[0] + [sep] + Join(parts[1..], sep);
      assert s[..|parts[0]|] == parts[0];
    }
  }

  lemma ModelBadgeExample()
    ensures ModelBadge("gpt-4o") == "GPT"
  {
    FirstPartIsPrefix("gpt-4o", '-');
    assert "gpt-4o"[3] == '-';
    assert "gpt" == "gpt-4o"[..3];
  }
}
