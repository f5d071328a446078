/** The history and summary that accompany a conversation turn (app/conversations/service.py, with the
    token estimate of app/quota/token_estimator.py). */
module ShortTermContext {
  import opened Wrappers
  import opened PyText

  const SUMMARY_HEADER := "Earlier conversation summary"
  const SUMMARY_SEPARATOR := "\n\n"
  const SNIPPET_MAX_CHARS := 160
  const MESSAGE_OVERHEAD := 4
  const REPLY_OVERHEAD := 2

  datatype Message = Message(role: string, content: string)

  datatype Context = Context(history: seq<Message>, summary: Option<string>)

  datatype Settings = Settings(limit: nat, maxTokens: nat, summaryMaxChars: nat)

  function AtLeast(n: int, low: nat): nat {
    if n < low then low else n
  }

  /** Values below the minimum are raised to it, all others are kept. */
  function MakeSettings(limit: int, maxTokens: int, summaryMaxChars: int): (c: Settings)
    ensures (limit >= 0 ==> c.limit == limit) && (limit < 0 ==> c.limit == 0)
    ensures (maxTokens >= 100 ==> c.maxTokens == maxTokens) && (maxTokens < 100 ==> c.maxTokens == 100)
    ensures summaryMaxChars >= 100 ==> c.summaryMaxChars == summaryMaxChars
    ensures summaryMaxChars < 100 ==> c.summaryMaxChars == 100
  {
    Settings(AtLeast(limit, 0), AtLeast(maxTokens, 100), AtLeast(summaryMaxChars, 100))
  }

  // ----- Token estimate -----

  function MessageTokens(m: Message): nat {
    Utf8Length(m.role) + Utf8Length(m.content) + MESSAGE_OVERHEAD
  }

  function PromptTokens(ms: seq<Message>): nat {
    if ms == [] then REPLY_OVERHEAD else PromptTokens(ms[..|ms| - 1]) + MessageTokens(ms[|ms| - 1])
  }

  method EstimatePromptTokens(ms: seq<Message>) returns (total: nat)
    ensures total == PromptTokens(ms)
  {
    total := REPLY_OVERHEAD;
    for i := 0 to |ms|
      invariant total == PromptTokens(ms[..i])
    {
      assert ms[..i + 1][..i] == ms[..i];
      total := total + MessageTokens(ms[i]);
    }
    assert ms[..|ms|] == ms;
  }

  /** The estimate adds up: the constants, and the bytes of every role and content. */
  lemma {:induction false} EstimateAddsUp(a: seq<Message>, b: seq<Message>, m: Message)
    ensures PromptTokens([]) == 2
    ensures PromptTokens([m]) == 2 + Utf8Length(m.role) + Utf8Length(m.content) + 4
    ensures PromptTokens(a + b) == PromptTokens(a) + PromptTokens(b) - 2
  {
    assert [m][..0] == [];
    if b == [] {
      assert a + b == a;
    } else {
      assert (a + b)[..|a + b| - 1] == a + b[..|b| - 1];
      EstimateAddsUp(a, b[..|b| - 1], m);
    }
  }

  function PromptMessages(prompt: Option<string>, history: seq<Message>): seq<Message> {
    (if prompt.Some? && prompt.value != "" then [Message("system", prompt.value)] else []) + history
  }

  predicate Fits(c: Settings, prompt: Option<string>, history: seq<Message>) {
    PromptTokens(PromptMessages(prompt, history)) <= c.maxTokens
  }

  method ContextFits(c: Settings, prompt: Option<string>, history: seq<Message>) returns (fits: bool)
    ensures fits == Fits(c, prompt, history)
    ensures var extra := if prompt.Some? && prompt.value != "" then |"system"| + Utf8Length(prompt.value) + 4 else 0;
            fits <==> extra + PromptTokens(history) <= c.maxTokens
  {
    PromptCosts(prompt, history);
    var messages: seq<Message> := [];
    if prompt.Some? && prompt.value != "" {
      messages := [Message("system", prompt.value)];
    }
    var total := EstimatePromptTokens(messages + history);
    return total <= c.maxTokens;
  }

  lemma {:induction false} PromptCosts(prompt: Option<string>, history: seq<Message>)
    ensures PromptTokens(PromptMessages(prompt, history)) == PromptTokens(history) +
            if prompt.Some? && prompt.value != "" then |"system"| + Utf8Length(prompt.value) + 4 else 0
  {
    if prompt.Some? && prompt.value != "" {
      var m := Message("system", prompt.value);
      EstimateAddsUp([m], history, m);
      AsciiLength("system");
    } else {
      assert [] + history == history;
    }
  }

  lemma {:induction false} AsciiLength(s: string)
    requires forall i :: 0 <= i < |s| ==> s[i] <= '\U{7f}'
    ensures Utf8Length(s) == |s|
  {
    if s != "" {
      AsciiLength(s[..|s| - 1]);
    }
  }

  // ----- Summary -----

  function MergePrompt(prompt: Option<string>, summary: Option<string>): Option<string> {
    if summary.None? then prompt
    else if prompt.None? || Blank(prompt.value) then summary
    else Some(RStrip(prompt.value) + SUMMARY_SEPARATOR + summary.value)
  }

  /** A prompt and a summary are both there, the prompt first, with a blank line between them; white space at the
      end of the prompt goes. A blank or missing one of them gives way to the other. */
  lemma {:induction false} MergedPromptReads(prompt: Option<string>, summary: Option<string>)
    ensures summary == None ==> MergePrompt(prompt, summary) == prompt
    ensures summary.Some? && (prompt == None || Blank(prompt.value)) ==> MergePrompt(prompt, summary) == summary
    ensures summary.Some? && prompt.Some? && !Blank(prompt.value) ==>
              exists head :: && head <= prompt.value && Blank(prompt.value[|head|..])
                             && head != "" && !IsSpace(head[|head| - 1])
                             && MergePrompt(prompt, summary) == Some(head + "\n\n" + summary.value)
  {
    if summary.Some? && prompt.Some? && !Blank(prompt.value) {
      RStripReads(prompt.value);
      var head := RStrip(prompt.value);
      assert prompt.value[0..] == prompt.value;
    }
  }

  function Cut(text: string, limit: nat): (r: string)
    ensures |r| <= |text|
    ensures |text| <= limit ==> r == text
  {
    if |text| <= limit then text
    else if limit <= 1 then text[..limit]
    else (RStripIsPrefix(text[..limit - 1]); RStrip(text[..limit - 1]) + "\U{2026}")
  }

  /** A cut text stays within its limit. */
  lemma {:induction false} CutIsBounded(text: string, limit: nat)
    ensures |Cut(text, limit)| <= limit
  {
    if 1 < limit < |text| {
      RStripIsPrefix(text[..limit - 1]);
    }
  }

  /** A text that is too long keeps its beginning, without white space at the cut, and ends in an ellipsis. */
  lemma {:induction false} CutReads(text: string, limit: nat)
    requires 1 < limit < |text|
    ensures exists head :: && head <= text && |head| < limit && Blank(text[|head|..limit - 1])
                           && (head != "" ==> !IsSpace(head[|head| - 1]))
                           && Cut(text, limit) == head + "\U{2026}"
  {
    var part := text[..limit - 1];
    RStripReads(part);
    var head := RStrip(part);
    assert part[|head|..] == text[|head|..limit - 1];
  }

  function Snippet(content: string): string {
    Cut(Join(" ", Words(content)), SNIPPET_MAX_CHARS)
  }

  function SummaryLines(dropped: seq<Message>): seq<string> {
    if dropped == [] then []
    else
      var m := dropped[|dropped| - 1];
      SummaryLines(dropped[..|dropped| - 1]) + ["- " + m.role + ": " + Snippet(m.content)]
  }

  function Header(n: nat): string {
    SUMMARY_HEADER + " (" + Decimal(n) + " message" + (if n != 1 then "s" else "") + " omitted):"
  }

  function SummaryOf(c: Settings, dropped: seq<Message>): Option<string> {
    if dropped == [] then None
    else Some(Cut(Join("\n", [Header(|dropped|)] + SummaryLines(dropped)), c.summaryMaxChars))
  }

  /** The header counts the messages, and line k tells the role and the text of message k. */
  ghost predicate Tells(lines: seq<string>, dropped: seq<Message>) {
    && |lines| == |dropped| + 1
    && lines[0] == "Earlier conversation summary (" + Decimal(|dropped|)
                   + (if |dropped| == 1 then " message" else " messages") + " omitted):"
    && forall k :: 0 <= k < |dropped| ==>
         lines[k + 1] == "- " + dropped[k].role + ": " + Cut(Join(" ", Words(dropped[k].content)), 160)
  }

  lemma {:induction false} LinesTell(dropped: seq<Message>)
    ensures Tells([Header(|dropped|)] + SummaryLines(dropped), dropped)
  {
    LinesAre(dropped);
    HeaderReads(|dropped|);
  }

  lemma {:induction false} HeaderReads(n: nat)
    ensures Header(n) == "Earlier conversation summary (" + Decimal(n)
                         + (if n == 1 then " message" else " messages") + " omitted):"
  {
    var d := Decimal(n);
    var plural := if n != 1 then "s" else "";
    assert SUMMARY_HEADER + " (" == "Earlier conversation summary (";
    assert " message" + plural == if n == 1 then " message" else " messages";
    assert SUMMARY_HEADER + " (" + d + " message" + plural + " omitted):" ==
           (SUMMARY_HEADER + " (") + d + (" message" + plural) + " omitted):";
  }

  lemma {:induction false} LinesAre(dropped: seq<Message>)
    ensures |SummaryLines(dropped)| == |dropped|
    ensures forall k :: 0 <= k < |dropped| ==>
              SummaryLines(dropped)[k] == "- " + dropped[k].role + ": " + Snippet(dropped[k].content)
  {
    if dropped != [] {
      LinesAre(dropped[..|dropped| - 1]);
    }
  }

  method BuildSummary(c: Settings, dropped: seq<Message>) returns (summary: Option<string>)
    ensures summary == SummaryOf(c, dropped)
    ensures summary == None <==> dropped == []
    ensures summary.Some? ==> |summary.value| <= c.summaryMaxChars
    ensures dropped != [] ==>
              exists lines :: && Tells(lines, dropped)
                              && summary == Some(Cut(Join("\n", lines), c.summaryMaxChars))
  {
    if dropped == [] {
      return None;
    }
    var lines := [Header(|dropped|)];
    for i := 0 to |dropped|
      invariant lines == [Header(|dropped|)] + SummaryLines(dropped[..i])
    {
      assert dropped[..i + 1][..i] == dropped[..i];
      lines := lines + ["- " + dropped[i].role + ": " + Snippet(dropped[i].content)];
    }
    assert dropped[..|dropped|] == dropped;
    LinesTell(dropped);
    CutIsBounded(Join("\n", lines), c.summaryMaxChars);
    return Some(Cut(Join("\n", lines), c.summaryMaxChars));
  }

  // ----- Cutting the summary to the budget -----

  function Candidate(summary: string, m: nat): string
    requires m <= |summary|
  {
    RStrip(summary[..m])
  }

  predicate PrefixFits(c: Settings, prompt: Option<string>, summary: string, m: nat)
    requires m <= |summary|
  {
    Fits(c, MergePrompt(prompt, Some(Candidate(summary, m))), [])
  }

  /** A scan from the whole summary down to the first prefix that fits. */
  function LongestFit(c: Settings, prompt: Option<string>, summary: string, m: nat): string
    requires m <= |summary|
  {
    if PrefixFits(c, prompt, summary, m) then Candidate(summary, m)
    else if m == 0 then ""
    else LongestFit(c, prompt, summary, m - 1)
  }

  /** It is the longest prefix that fits, without white space at its end; empty if none does. */
  lemma {:induction false} LongestFitReads(c: Settings, prompt: Option<string>, summary: string, m: nat)
    requires m <= |summary|
    ensures || (&& LongestFit(c, prompt, summary, m) == ""
                && forall k :: 0 <= k <= m ==> !PrefixFits(c, prompt, summary, k))
            || exists n :: && 0 <= n <= m && PrefixFits(c, prompt, summary, n)
                           && LongestFit(c, prompt, summary, m) == RStrip(summary[..n])
                           && forall k :: n < k <= m ==> !PrefixFits(c, prompt, summary, k)
  {
    hide PrefixFits;
    if !PrefixFits(c, prompt, summary, m) && m > 0 {
      LongestFitReads(c, prompt, summary, m - 1);
    }
  }

  function PromptCost(prompt: string): nat {
    if prompt == "" then REPLY_OVERHEAD else REPLY_OVERHEAD + MessageTokens(Message("system", prompt))
  }

  lemma {:induction false} CostOfPrompt(c: Settings, prompt: Option<string>)
    requires prompt.Some?
    ensures Fits(c, prompt, []) <==> PromptCost(prompt.value) <= c.maxTokens
  {
    var ms := PromptMessages(prompt, []);
    if prompt.value != "" {
      assert ms == [Message("system", prompt.value)];
      assert PromptTokens(ms) == PromptTokens(ms[..0]) + MessageTokens(ms[0]);
    }
  }

  lemma {:induction false} CostMonotone(prompt: Option<string>, s: string, t: string)
    requires s <= t
    ensures PromptCost(MergePrompt(prompt, Some(s)).value) <= PromptCost(MergePrompt(prompt, Some(t)).value)
  {
    Utf8Monotone(s, t);
    if !(prompt.None? || Blank(prompt.value)) {
      var head := RStrip(prompt.value) + SUMMARY_SEPARATOR;
      Utf8Concat(head, s);
      Utf8Concat(head, t);
    }
  }

  /** Shorter prefixes cost no more: what makes the binary search right. */
  lemma {:induction false} FitIsDownwardClosed(c: Settings, prompt: Option<string>, summary: string, a: nat, b: nat)
    requires a <= b <= |summary| && PrefixFits(c, prompt, summary, b)
    ensures PrefixFits(c, prompt, summary, a)
  {
    RStripMonotone(summary, a, b);
    CostMonotone(prompt, Candidate(summary, a), Candidate(summary, b));
    CostOfPrompt(c, MergePrompt(prompt, Some(Candidate(summary, a))));
    CostOfPrompt(c, MergePrompt(prompt, Some(Candidate(summary, b))));
  }

  lemma {:induction false} ScanStopsAt(c: Settings, prompt: Option<string>, summary: string, m: nat, from: nat)
    requires m <= from <= |summary|
    requires forall q :: m < q <= from ==> !PrefixFits(c, prompt, summary, q)
    ensures PrefixFits(c, prompt, summary, m) ==> LongestFit(c, prompt, summary, from) == Candidate(summary, m)
    ensures !PrefixFits(c, prompt, summary, m) && m == 0 ==> LongestFit(c, prompt, summary, from) == ""
  {
    hide PrefixFits, RStrip;
    if m < from {
      ScanStopsAt(c, prompt, summary, m, from - 1);
    }
  }

  /** The binary search finds what the scan finds. */
  method TruncateSummary(c: Settings, prompt: Option<string>, summary: string) returns (best: string)
    ensures best == LongestFit(c, prompt, summary, |summary|)
    ensures best != "" ==> Fits(c, MergePrompt(prompt, Some(best)), [])
  {
    var low, high := 0, |summary|;
    best := "";
    ghost var at: int := -1;
    while low <= high
      invariant 0 <= low <= high + 1 <= |summary| + 1 && at == low - 1
      invariant at >= 0 ==> PrefixFits(c, prompt, summary, at) && best == Candidate(summary, at)
      invariant at < 0 ==> best == ""
      invariant forall q :: high < q <= |summary| ==> !PrefixFits(c, prompt, summary, q)
      decreases high - low
    {
      var mid := (low + high) / 2;
      var candidate := RStrip(summary[..mid]);
      var fits := ContextFits(c, MergePrompt(prompt, Some(candidate)), []);
      if fits {
        best, low, at := candidate, mid + 1, mid;
      } else {
        forall q | mid <= q <= |summary|
          ensures !PrefixFits(c, prompt, summary, q)
        {
          if PrefixFits(c, prompt, summary, q) {
            FitIsDownwardClosed(c, prompt, summary, mid, q);
          }
        }
        high := mid - 1;
      }
    }
    ScanStopsAt(c, prompt, summary, if at < 0 then 0 else at, |summary|);
  }

  // ----- The window -----

  /** How many messages the message limit alone drops. */
  function Overflow(c: Settings, n: nat): nat {
    if n > c.limit then n - c.limit else 0
  }

  function Reversed(ms: seq<Message>): seq<Message> {
    if ms == [] then [] else Reversed(ms[1..]) + [ms[0]]
  }

  /** The messages dropped when the history is cut at `p`, in the order in which the source lists them:
      those dropped for the token budget come first, the latest of them in front. */
  function DroppedAt(c: Settings, history: seq<Message>, p: nat): seq<Message>
    requires Overflow(c, |history|) <= p <= |history|
  {
    Reversed(history[Overflow(c, |history|)..p]) + history[..Overflow(c, |history|)]
  }

  /** The history from `p` on fits together with the summary of everything before it. */
  predicate FitsFrom(c: Settings, prompt: Option<string>, history: seq<Message>, p: nat)
    requires Overflow(c, |history|) <= p <= |history|
  {
    Fits(c, MergePrompt(prompt, SummaryOf(c, DroppedAt(c, history, p))), history[p..])
  }

  lemma {:induction false} ReversedKeepsAll(ms: seq<Message>)
    ensures multiset(Reversed(ms)) == multiset(ms)
  {
    if ms != [] {
      ReversedKeepsAll(ms[1..]);
      assert ms == [ms[0]] + ms[1..];
    }
  }

  lemma {:induction false} ReversedAppend(ms: seq<Message>, m: Message)
    ensures Reversed(ms + [m]) == [m] + Reversed(ms)
  {
    if ms != [] {
      assert (ms + [m])[1..] == ms[1..] + [m];
      ReversedAppend(ms[1..], m);
    }
  }

  /** No message is lost or doubled between the history and the summarized part. */
  lemma {:induction false} NothingIsLost(c: Settings, history: seq<Message>, p: nat)
    requires Overflow(c, |history|) <= p <= |history|
    ensures multiset(DroppedAt(c, history, p)) + multiset(history[p..]) == multiset(history)
  {
    DroppedKeepsAll(c, history, p);
    hide DroppedAt;
    assert history == history[..p] + history[p..];
  }

  lemma {:induction false} DroppedKeepsAll(c: Settings, history: seq<Message>, p: nat)
    requires Overflow(c, |history|) <= p <= |history|
    ensures multiset(DroppedAt(c, history, p)) == multiset(history[..p])
  {
    var w := Overflow(c, |history|);
    ReversedKeepsAll(history[w..p]);
    assert history[..p] == history[..w] + history[w..p];
  }

  ghost predicate Distinct(history: seq<Message>) {
    forall i, j :: 0 <= i < j < |history| ==> history[i] != history[j]
  }

  /** Where the history is cut: at the first place in the window from which on it fits, or at its end. */
  ghost predicate IsCut(c: Settings, prompt: Option<string>, history: seq<Message>, p: nat) {
    && Overflow(c, |history|) <= p <= |history|
    && (forall q :: Overflow(c, |history|) <= q < p ==> !FitsFrom(c, prompt, history, q))
    && (p == |history| || FitsFrom(c, prompt, history, p))
  }

  /** The token budget drops nothing, or nothing but the very first message: the window is empty or fits, or the
      message limit drops nothing and all but the first message fit. */
  ghost predicate KeepsOrder(c: Settings, prompt: Option<string>, history: seq<Message>) {
    var w := Overflow(c, |history|);
    || w == |history|
    || FitsFrom(c, prompt, history, w)
    || (w == 0 && (|history| == 1 || FitsFrom(c, prompt, history, 1)))
  }

  /** Distinct messages are summarized in the order of the conversation exactly when the budget drops at most the
      very first message. */
  lemma {:induction false} SummaryOrderIff(c: Settings, prompt: Option<string>, history: seq<Message>, cut: nat)
    requires IsCut(c, prompt, history, cut) && Distinct(history)
    ensures DroppedAt(c, history, cut) == history[..cut] <==> KeepsOrder(c, prompt, history)
  {
    hide FitsFrom, DroppedAt;
    ChronologicalIff(c, history, cut);
  }

  lemma {:induction false} ChronologicalIff(c: Settings, history: seq<Message>, p: nat)
    requires Overflow(c, |history|) <= p <= |history|
    requires Distinct(history)
    ensures DroppedAt(c, history, p) == history[..p] <==> p == Overflow(c, |history|) || p == 1
  {
    var w := Overflow(c, |history|);
    if p == w {
      DropNoMore(c, history);
    } else {
      DropOneMore(c, history, p - 1);
      assert DroppedAt(c, history, p)[0] == history[p - 1];
      if p == 1 {
        DropNoMore(c, history);
      }
    }
  }

  lemma {:induction false} DropNoMore(c: Settings, history: seq<Message>)
    ensures DroppedAt(c, history, Overflow(c, |history|)) == history[..Overflow(c, |history|)]
  {
  }

  lemma {:induction false} DropOneMore(c: Settings, history: seq<Message>, p: nat)
    requires Overflow(c, |history|) <= p < |history|
    ensures DroppedAt(c, history, p + 1) == [history[p]] + DroppedAt(c, history, p)
  {
    var w := Overflow(c, |history|);
    assert history[w..p + 1] == history[w..p] + [history[p]];
    ReversedAppend(history[w..p], history[p]);
  }

  /** The messages before q as the summary lists them, when the message limit drops the first w: those from w on
      come first, from q backwards, and then the first w in their order. */
  ghost predicate Omits(history: seq<Message>, w: nat, q: nat, omitted: seq<Message>) {
    && w <= q <= |history| && |omitted| == q
    && (forall i :: 0 <= i < q - w ==> omitted[i] == history[q - 1 - i])
    && (forall i :: q - w <= i < q ==> omitted[i] == history[i - (q - w)])
  }

  /** No longer part of the history that is within the message limit fits with the summary of the rest. */
  ghost predicate NothingLongerFits(c: Settings, prompt: Option<string>, history: seq<Message>, cut: nat) {
    var w := if |history| <= c.limit then 0 else |history| - c.limit;
    forall q: nat, omitted :: q < cut && |history| - q <= c.limit && Omits(history, w, q, omitted) ==>
      !Fits(c, MergePrompt(prompt, SummaryOf(c, omitted)), history[q..])
  }

  /** All that the message limit allows fits with the summary of the rest. */
  ghost predicate WindowFits(c: Settings, prompt: Option<string>, history: seq<Message>, n: nat) {
    && n <= |history| && (n == |history| <= c.limit || n == c.limit < |history|)
    && Fits(c, MergePrompt(prompt, SummaryOf(c, history[..|history| - n])), history[|history| - n..])
  }

  lemma {:induction false} ReversedAt(ms: seq<Message>, i: nat)
    requires i < |ms|
    ensures |Reversed(ms)| == |ms| && Reversed(ms)[i] == ms[|ms| - 1 - i]
  {
    if |ms| > 1 {
      ReversedAt(ms[1..], if i < |ms| - 1 then i else 0);
    }
  }

  lemma {:induction false} OmittedIsDropped(c: Settings, history: seq<Message>, q: nat, omitted: seq<Message>)
    requires Omits(history, Overflow(c, |history|), q, omitted)
    ensures omitted == DroppedAt(c, history, q)
  {
    var w := Overflow(c, |history|);
    var part := history[w..q];
    if w < q {
      ReversedAt(part, 0);
    }
    forall i | 0 <= i < q
      ensures omitted[i] == DroppedAt(c, history, q)[i]
    {
      if i < q - w {
        ReversedAt(part, i);
      }
    }
  }

  /** What the cut means for the context, told without it. */
  lemma {:induction false} ContextReads(
      c: Settings, prompt: Option<string>, history: seq<Message>, cut: nat, ctx: Context)
    requires IsCut(c, prompt, history, cut) && ctx.history == history[cut..]
    requires FitsFrom(c, prompt, history, cut) ==> ctx.summary == SummaryOf(c, DroppedAt(c, history, cut))
    ensures |ctx.history| <= c.limit && NothingLongerFits(c, prompt, history, cut)
    ensures forall n :: WindowFits(c, prompt, history, n) ==>
              ctx == Context(history[|history| - n..], SummaryOf(c, history[..|history| - n]))
    ensures |history| <= c.limit && Fits(c, prompt, history) ==> ctx == Context(history, None)
    ensures Distinct(history) ==>
              (DroppedAt(c, history, cut) == history[..cut] <==> KeepsOrder(c, prompt, history))
  {
    hide Fits, MergePrompt, DroppedAt, SummaryOf, FitsFrom, KeepsOrder, Distinct, NothingLongerFits;
    NothingLonger(c, prompt, history, cut);
    if Distinct(history) {
      SummaryOrderIff(c, prompt, history, cut);
    }
    forall n | WindowFits(c, prompt, history, n)
      ensures ctx == Context(history[|history| - n..], SummaryOf(c, history[..|history| - n]))
    {
      WindowIsKept(c, prompt, history, n);
    }
    if |history| <= c.limit && Fits(c, prompt, history) {
      WholeFits(c, prompt, history);
      assert history[..0] == [] && history[0..] == history;
      assert SummaryOf(c, []) == None by {
        NoSummary(c);
      }
    }
  }

  lemma {:induction false} NoSummary(c: Settings)
    ensures SummaryOf(c, []) == None
  {
  }

  lemma {:induction false} NothingLonger(c: Settings, prompt: Option<string>, history: seq<Message>, cut: nat)
    requires IsCut(c, prompt, history, cut)
    ensures NothingLongerFits(c, prompt, history, cut)
  {
    hide Fits, MergePrompt, DroppedAt, SummaryOf;
    var w := Overflow(c, |history|);
    forall q: nat, omitted | q < cut && |history| - q <= c.limit && Omits(history, w, q, omitted)
      ensures !Fits(c, MergePrompt(prompt, SummaryOf(c, omitted)), history[q..])
    {
      OmittedIsDropped(c, history, q, omitted);
      assert !FitsFrom(c, prompt, history, q);
    }
  }

  lemma {:induction false} WindowIsKept(c: Settings, prompt: Option<string>, history: seq<Message>, n: nat)
    requires WindowFits(c, prompt, history, n)
    ensures |history| - n == Overflow(c, |history|)
    ensures FitsFrom(c, prompt, history, |history| - n)
    ensures DroppedAt(c, history, |history| - n) == history[..|history| - n]
  {
    hide Fits, MergePrompt, DroppedAt, SummaryOf;
    DropNoMore(c, history);
  }

  lemma {:induction false} WholeFits(c: Settings, prompt: Option<string>, history: seq<Message>)
    requires |history| <= c.limit && Fits(c, prompt, history)
    ensures WindowFits(c, prompt, history, |history|)
  {
    hide Fits, SummaryOf;
    assert history[..0] == [] && history[0..] == history;
    NoSummary(c);
    MergedPromptReads(prompt, None);
  }

  /** The longest part of the window that fits with its summary; if nothing fits, not even the summary
      alone, then as much of the summary as fits. */
  method BuildShortTermContext(c: Settings, history: seq<Message>, prompt: Option<string>)
    returns (ctx: Context, ghost cut: nat)
    ensures Overflow(c, |history|) <= cut <= |history| && ctx.history == history[cut..]
    ensures |ctx.history| <= c.limit
    ensures forall q :: Overflow(c, |history|) <= q < cut ==> !FitsFrom(c, prompt, history, q)
    ensures FitsFrom(c, prompt, history, cut) ==> ctx.summary == SummaryOf(c, DroppedAt(c, history, cut))
    ensures !FitsFrom(c, prompt, history, cut) ==>
              ctx == Context([], match SummaryOf(c, DroppedAt(c, history, |history|))
                                 case None => None
                                 case Some(s) =>
                                   if LongestFit(c, prompt, s, |s|) == "" then None
                                   else Some(LongestFit(c, prompt, s, |s|)))
    ensures Fits(c, MergePrompt(prompt, ctx.summary), ctx.history) || ctx == Context([], None)
    ensures IsCut(c, prompt, history, cut) && NothingLongerFits(c, prompt, history, cut)
    ensures forall n :: WindowFits(c, prompt, history, n) ==>
              ctx == Context(history[|history| - n..], SummaryOf(c, history[..|history| - n]))
    ensures |history| <= c.limit && Fits(c, prompt, history) ==> ctx == Context(history, None)
    ensures Distinct(history) ==>
              (DroppedAt(c, history, cut) == history[..cut] <==> KeepsOrder(c, prompt, history))
  {
    hide Fits, SummaryOf, MergePrompt, LongestFit, DroppedAt, KeepsOrder, Distinct, WindowFits, NothingLongerFits;
    hide Tells, Cut, Join, PromptTokens, Utf8Length, Decimal;
    var kept, dropped := history, [];
    cut := 0;
    while |kept| > c.limit
      invariant cut <= Overflow(c, |history|) && kept == history[cut..] && dropped == history[..cut]
    {
      dropped, kept, cut := dropped + [kept[0]], kept[1..], cut + 1;
    }
    DropNoMore(c, history);
    var summary := BuildSummary(c, dropped);
    while true
      invariant Overflow(c, |history|) <= cut <= |history| && kept == history[cut..]
      invariant dropped == DroppedAt(c, history, cut) && summary == SummaryOf(c, dropped)
      invariant forall q :: Overflow(c, |history|) <= q < cut ==> !FitsFrom(c, prompt, history, q)
      decreases |kept|
    {
      var fits := ContextFits(c, MergePrompt(prompt, summary), kept);
      if fits {
        ctx := Context(kept, summary);
        ContextReads(c, prompt, history, cut, ctx);
        return ctx, cut;
      }
      assert !FitsFrom(c, prompt, history, cut);
      if kept == [] {
        break;
      }
      DropOneMore(c, history, cut);
      dropped, kept, cut := [kept[0]] + dropped, kept[1..], cut + 1;
      summary := BuildSummary(c, dropped);
    }
    ctx := Context([], None);
    if summary.Some? {
      var best := TruncateSummary(c, prompt, summary.value);
      ctx := Context([], if best == "" then None else Some(best));
    }
    ContextReads(c, prompt, history, cut, ctx);
  }

  // ----- Merging histories -----

  predicate ValidRole(role: string) {
    role in {"system", "user", "assistant"}
  }

  /** The turn of the last user message goes, together with its replies, if that message repeats the current one;
      any other history stays. */
  ghost predicate WithoutRetry(ms: seq<Message>, current: string, r: seq<Message>) {
    || (exists k :: && 0 <= k < |ms| && ms[k] == Message("user", current) && r == ms[..k]
                    && forall j :: k < j < |ms| ==> ms[j].role != "user")
    || (&& r == ms
        && forall k :: 0 <= k < |ms| && ms[k] == Message("user", current) ==>
             exists j :: k < j < |ms| && ms[j].role == "user")
  }

  /** The backward search of the source cuts exactly where the last user message repeats the current one. */
  method DropRetriedTurn(ms: seq<Message>, current: string) returns (r: seq<Message>)
    ensures WithoutRetry(ms, current, r)
  {
    for index := |ms| downto 0
      invariant forall j :: index <= j < |ms| ==> ms[j] != Message("user", current)
    {
      if ms[index].role != "user" || ms[index].content != current {
        continue;
      }
      if exists j :: index < j < |ms| && ms[j].role == "user" {
        var j :| index < j < |ms| && ms[j].role == "user";
        forall k | 0 <= k < |ms| && ms[k] == Message("user", current)
          ensures exists i :: k < i < |ms| && ms[i].role == "user"
        {
          assert k <= index < j;
        }
        break;
      }
      return ms[..index];
    }
    return ms;
  }

  /** `kept` is the messages at the positions `idx`, in order, and `idx` holds exactly the positions with one of
      the three roles. */
  ghost predicate TakesValid(ms: seq<Message>, kept: seq<Message>, idx: seq<nat>) {
    && |idx| == |kept|
    && (forall i, j :: 0 <= i < j < |idx| ==> idx[i] < idx[j])
    && (forall i :: 0 <= i < |idx| ==> idx[i] < |ms| && kept[i] == ms[idx[i]])
    && (forall j :: 0 <= j < |ms| ==>
          (j in idx <==> ms[j].role == "system" || ms[j].role == "user" || ms[j].role == "assistant"))
  }

  /** The same for the messages that are not among `first`. */
  ghost predicate TakesUnseen(ms: seq<Message>, first: seq<Message>, kept: seq<Message>, idx: seq<nat>) {
    && |idx| == |kept|
    && (forall i, j :: 0 <= i < j < |idx| ==> idx[i] < idx[j])
    && (forall i :: 0 <= i < |idx| ==> idx[i] < |ms| && kept[i] == ms[idx[i]])
    && (forall j :: 0 <= j < |ms| ==> (j in idx <==> ms[j] !in first))
  }

  /** The two parts of a merged history. */
  ghost predicate Parts(server: seq<Message>, client: seq<Message>, first: seq<Message>, second: seq<Message>) {
    (exists idx :: TakesValid(server, first, idx)) && (exists idx :: TakesUnseen(client, first, second, idx))
  }

  /** The valid messages of the server, each as often and in the order as there. */
  method ServerPart(server: seq<Message>) returns (first: seq<Message>, ghost idx: seq<nat>)
    ensures TakesValid(server, first, idx)
  {
    first, idx := [], [];
    for i := 0 to |server|
      invariant TakesValid(server[..i], first, idx)
    {
      assert server[..i + 1] == server[..i] + [server[i]];
      if ValidRole(server[i].role) {
        first, idx := first + [server[i]], idx + [i];
      }
    }
    assert server[..|server|] == server;
  }

  method ClientPart(client: seq<Message>, first: seq<Message>) returns (second: seq<Message>, ghost idx: seq<nat>)
    ensures TakesUnseen(client, first, second, idx)
  {
    var seen := set m | m in first;
    second, idx := [], [];
    for i := 0 to |client|
      invariant TakesUnseen(client[..i], first, second, idx)
    {
      assert client[..i + 1] == client[..i] + [client[i]];
      if client[i] !in seen {
        second, idx := second + [client[i]], idx + [i];
      }
    }
    assert client[..|client|] == client;
  }

  /** Server messages with a valid role first, then the client messages that are not among them, each
      part in its order; then the retried turn goes. */
  method MergeHistory(server: seq<Message>, client: seq<Message>, current: Option<string>)
    returns (r: seq<Message>)
    ensures exists first, second ::
              && Parts(server, client, first, second)
              && if current.None? then r == first + second else WithoutRetry(first + second, current.value, r)
  {
    var first, i := ServerPart(server);
    var second, j := ClientPart(client, first);
    assert Parts(server, client, first, second);
    r := first + second;
    if current.Some? {
      r := DropRetriedTurn(r, current.value);
    }
  }

  /** Merging keeps every valid server message and every client message, loses none and adds none. */
  lemma {:induction false} MergedMessages(
      server: seq<Message>, client: seq<Message>, first: seq<Message>, second: seq<Message>, m: Message)
    requires Parts(server, client, first, second)
    ensures m in first <==> m in server && (m.role == "system" || m.role == "user" || m.role == "assistant")
    ensures m in first + second <==> m in first || m in client
  {
    hide TakesValid, TakesUnseen;
    var i :| TakesValid(server, first, i);
    var j :| TakesUnseen(client, first, second, j);
    ValidMeaning(server, first, i, m);
    UnseenMeaning(client, first, second, j, m);
  }

  lemma {:induction false} ValidMeaning(ms: seq<Message>, kept: seq<Message>, idx: seq<nat>, m: Message)
    requires TakesValid(ms, kept, idx)
    ensures m in kept <==> m in ms && (m.role == "system" || m.role == "user" || m.role == "assistant")
  {
    if k :| 0 <= k < |kept| && kept[k] == m {
      assert idx[k] in idx;
    }
    if m in ms && (m.role == "system" || m.role == "user" || m.role == "assistant") {
      var p :| 0 <= p < |ms| && ms[p] == m;
      var k :| 0 <= k < |idx| && idx[k] == p;
      assert kept[k] == m;
    }
  }

  lemma {:induction false} UnseenMeaning(
      ms: seq<Message>, first: seq<Message>, kept: seq<Message>, idx: seq<nat>, m: Message)
    requires TakesUnseen(ms, first, kept, idx)
    ensures m in kept <==> m in ms && m !in first
  {
    if k :| 0 <= k < |kept| && kept[k] == m {
      assert idx[k] in idx;
    }
    if m in ms && m !in first {
      var p :| 0 <= p < |ms| && ms[p] == m;
      var k :| 0 <= k < |idx| && idx[k] == p;
      assert kept[k] == m;
    }
  }
}
