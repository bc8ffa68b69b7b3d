/** The conversation loop of `main` (src/main.rs): create the assistant
    and the thread once, then for each input line either stop on "exit" or
    post the line, print new messages, start a run, wait for it, and print
    new messages again when the run completed.  Every remote answer is an
    input; the calls made and the lines printed are the outputs. */
module Conversation {
  import opened ApiData
  import opened Printer
  import opened Poller

  // ---------------------------------------------------------------------
  // The exit test `question.trim().to_lowercase() == "exit"`
  // ---------------------------------------------------------------------

  /** Rust's `char::is_whitespace`: the Unicode White_Space characters. */
  predicate IsWhitespace(c: char) {
    ('\t' <= c <= '\r') || c == ' ' || c == '\U{85}' || c == '\U{A0}' || c == '\U{1680}'
    || ('\U{2000}' <= c <= '\U{200A}') || c == '\U{2028}' || c == '\U{2029}'
    || c == '\U{202F}' || c == '\U{205F}' || c == '\U{3000}'
  }

  predicate AllWhitespace(s: string) {
    forall i :: 0 <= i < |s| ==> IsWhitespace(s[i])
  }

  function TrimStart(s: string): (t: string) {
    if s != [] && IsWhitespace(s[0]) then TrimStart(s[1..]) else s
  }

  function TrimEnd(s: string): (t: string) {
    if s != [] && IsWhitespace(s[|s| - 1]) then TrimEnd(s[..|s| - 1]) else s
  }

  /** `str::trim`: leading and trailing whitespace removed. */
  function Trim(s: string): (t: string) {
    TrimEnd(TrimStart(s))
  }

  /** `char::to_lowercase` on ASCII letters; other characters unchanged. */
  function LowerChar(c: char): (l: char) {
    if 'A' <= c <= 'Z' then (c as int + 32) as char else c
  }

  function ToLower(s: string): (t: string) {
    if s == [] then [] else [LowerChar(s[0])] + ToLower(s[1..])
  }

  lemma {:induction false} ToLowerAt(s: string)
    ensures |ToLower(s)| == |s| && forall k :: 0 <= k < |s| ==> ToLower(s)[k] == LowerChar(s[k])
  {
    if s != [] {
      ToLowerAt(s[1..]);
    }
  }

  /** The test that ends the conversation. */
  predicate IsExit(question: string) {
    ToLower(Trim(question)) == "exit"
  }

  /** TrimStart removes a whitespace prefix and stops at a non-whitespace
      character. */
  lemma {:induction false} TrimStartShape(s: string)
    ensures |TrimStart(s)| <= |s| && TrimStart(s) == s[|s| - |TrimStart(s)|..]
    ensures AllWhitespace(s[..|s| - |TrimStart(s)|])
    ensures TrimStart(s) != [] ==> !IsWhitespace(TrimStart(s)[0])
  {
    if s != [] && IsWhitespace(s[0]) {
      TrimStartShape(s[1..]);
      var n := |s| - |TrimStart(s)|;
      assert s[..n] == [s[0]] + s[1..][..n - 1];
    }
  }

  /** TrimEnd removes a whitespace suffix and stops at a non-whitespace
      character. */
  lemma {:induction false} TrimEndShape(s: string)
    ensures |TrimEnd(s)| <= |s| && TrimEnd(s) == s[..|TrimEnd(s)|]
    ensures AllWhitespace(s[|TrimEnd(s)|..])
    ensures TrimEnd(s) != [] ==> !IsWhitespace(TrimEnd(s)[|TrimEnd(s)| - 1])
  {
    if s != [] && IsWhitespace(s[|s| - 1]) {
      var s' := s[..|s| - 1];
      TrimEndShape(s');
      var n := |TrimEnd(s)|;
      assert s[n..] == s'[n..] + [s[|s| - 1]];
    }
  }

  lemma {:induction false} TrimStartOfPadded(ws: string, t: string)
    requires AllWhitespace(ws)
    requires t != [] && !IsWhitespace(t[0])
    ensures TrimStart(ws + t) == t
  {
    if ws != [] {
      assert (ws + t)[1..] == ws[1..] + t;
      TrimStartOfPadded(ws[1..], t);
    } else {
      assert ws + t == t;
    }
  }

  lemma {:induction false} TrimEndOfPadded(t: string, ws: string)
    requires AllWhitespace(ws)
    requires t != [] && !IsWhitespace(t[|t| - 1])
    ensures TrimEnd(t + ws) == t
  {
    if ws != [] {
      assert (t + ws)[..|t + ws| - 1] == t + ws[..|ws| - 1];
      TrimEndOfPadded(t, ws[..|ws| - 1]);
    } else {
      assert t + ws == t;
    }
  }

  /** A character that lowercases to a letter of "exit" is not whitespace. */
  lemma ExitLettersAreNotWhitespace(w: string)
    requires ToLower(w) == "exit"
    ensures |w| == 4 && forall k :: 0 <= k < 4 ==> !IsWhitespace(w[k])
  {
    ToLowerAt(w);
    forall k | 0 <= k < 4 ensures !IsWhitespace(w[k]) {
      assert LowerChar(w[k]) == "exit"[k];
    }
  }

  /** "exit" in any case, with only whitespace around it, ends the
      conversation. */
  lemma PaddedIsExit(before: string, word: string, after: string)
    requires AllWhitespace(before) && AllWhitespace(after)
    requires ToLower(word) == "exit"
    ensures IsExit(before + word + after)
  {
    ExitLettersAreNotWhitespace(word);
    assert before + word + after == before + (word + after);
    TrimStartOfPadded(before, word + after);
    TrimEndOfPadded(word, after);
  }

  /** A line that ends the conversation is "exit" in some case, with only
      whitespace around it. */
  lemma ExitIsPadded(q: string)
    requires IsExit(q)
    ensures exists i :: 0 <= i <= |q| - 4 && AllWhitespace(q[..i])
                        && ToLower(q[i..i + 4]) == "exit" && AllWhitespace(q[i + 4..])
  {
    var a := TrimStart(q);
    var t := TrimEnd(a);
    TrimStartShape(q);
    TrimEndShape(a);
    ToLowerAt(t);
    var i := |q| - |a|;
    assert q[i..i + 4] == t;
    assert q[i + 4..] == a[4..];
  }

  /** A line ends the conversation exactly when it is "exit", in any mix of
      upper and lower case, with only whitespace around it. */
  lemma ExitCharacterized(q: string)
    ensures IsExit(q) <==>
      exists i :: 0 <= i <= |q| - 4 && AllWhitespace(q[..i])
                  && ToLower(q[i..i + 4]) == "exit" && AllWhitespace(q[i + 4..])
  {
    if IsExit(q) {
      ExitIsPadded(q);
    }
    if exists i :: 0 <= i <= |q| - 4 && AllWhitespace(q[..i])
                   && ToLower(q[i..i + 4]) == "exit" && AllWhitespace(q[i + 4..]) {
      var i :| 0 <= i <= |q| - 4 && AllWhitespace(q[..i])
               && ToLower(q[i..i + 4]) == "exit" && AllWhitespace(q[i + 4..]);
      assert q == q[..i] + q[i..i + 4] + q[i + 4..];
      PaddedIsExit(q[..i], q[i..i + 4], q[i + 4..]);
    }
  }

  /** "Exit\n", "  EXIT  " and "exit" end the conversation. */
  lemma ExitExamples()
    ensures IsExit("Exit\n") && IsExit("  EXIT  ") && IsExit("exit")
  {
    ToLowerAt("Exit");
    ToLowerAt("EXIT");
    ToLowerAt("exit");
    assert ToLower("Exit") == "exit" && ToLower("EXIT") == "exit" && ToLower("exit") == "exit";
    assert AllWhitespace("\n") && AllWhitespace("  ") && AllWhitespace("");
    PaddedIsExit("", "Exit", "\n");
    assert "" + "Exit" + "\n" == "Exit\n";
    PaddedIsExit("  ", "EXIT", "  ");
    assert "  " + "EXIT" + "  " == "  EXIT  ";
    PaddedIsExit("", "exit", "");
    assert "" + "exit" + "" == "exit";
  }

  /** "exitnow" and "ex it" do not end the conversation. */
  lemma NotExitExamples()
    ensures !IsExit("exitnow") && !IsExit("ex it")
  {
    assert Trim("exitnow") == "exitnow";
    ToLowerAt("exitnow");
    assert Trim("ex it") == "ex it";
    ToLowerAt("ex it");
  }

  // ---------------------------------------------------------------------
  // The dispatch on the poller's result
  // ---------------------------------------------------------------------

  /** What `main` does after the run: print new messages again, print the
      "requires action" notice, or print the "unknown error" notice. */
  datatype Branch = PrintAgain | RequiresActionNotice | UnknownErrorNotice

  /** The dispatch as written: it compares with "req_action", a string the
      poller never returns. */
  function DispatchAsWritten(result: string): (b: Branch) {
    if result == "completed" then PrintAgain
    else if result == "req_action" then RequiresActionNotice
    else UnknownErrorNotice
  }

  /** The dispatch as intended: it compares with "requires_action", the
      string the poller returns. */
  function Dispatch(result: string): (b: Branch) {
    if result == "completed" then PrintAgain
    else if result == "requires_action" then RequiresActionNotice
    else UnknownErrorNotice
  }

  /** As written, no result of the poller reaches the "requires action"
      branch, and a run that requires action is reported as an unknown
      error. */
  lemma AsWrittenActionBranchUnreachable(polls: seq<Result<string>>)
    ensures var r := PollOutcomeOf(polls);
      r.Returned? ==> DispatchAsWritten(r.status) != RequiresActionNotice
                      && (r.status == "requires_action" <==> DispatchAsWritten(r.status) == UnknownErrorNotice)
  {
    ReturnsOnlyTerminal(polls);
  }

  /** As intended, each result of the poller reaches its own branch and the
      "unknown error" branch is never taken. */
  lemma DispatchFollowsPoller(polls: seq<Result<string>>)
    ensures var r := PollOutcomeOf(polls);
      r.Returned? ==> (Dispatch(r.status) == PrintAgain <==> r.status == "completed")
                      && (Dispatch(r.status) == RequiresActionNotice <==> r.status == "requires_action")
                      && Dispatch(r.status) != UnknownErrorNotice
  {
    ReturnsOnlyTerminal(polls);
  }

  /** Both dispatches print new messages again on exactly the same results,
      so they make the same remote calls and change the list of printed ids
      alike; they differ only in the notice printed for a run that requires
      action. */
  lemma DispatchesAgreeOnCalls(result: string)
    ensures (Dispatch(result) == PrintAgain) == (DispatchAsWritten(result) == PrintAgain)
    ensures Dispatch(result) != DispatchAsWritten(result) ==> result == "requires_action" || result == "req_action"
  {
  }

  /** Which dispatch a session uses: the one `main` has, or the corrected
      one. */
  datatype Dispatcher = AsWritten | Corrected

  /** The dispatch `d` names. */
  function Route(d: Dispatcher, result: string): (b: Branch) {
    if d == AsWritten then DispatchAsWritten(result) else Dispatch(result)
  }

  // ---------------------------------------------------------------------
  // One round of the loop and the whole session
  // ---------------------------------------------------------------------

  /** The remote calls the program makes. */
  datatype Call =
    | CreateAssistant
    | CreateThread
    | AddMessage(thread: Id, content: string)
    | ListMessages(thread: Id)
    | StartRun(thread: Id, assistant: Id)
    | GetRun(thread: Id, run: Id)

  /** The remote's answers during one round: the posted message's id, the
      listing read by the first print, the started run's id, the answers of
      the status requests, and the listing read by the second print. */
  datatype Replies = Replies(
    posted: Result<Id>,
    before: Result<seq<ListedMessage>>,
    run: Result<Id>,
    polls: seq<Result<string>>,
    after: Result<seq<ListedMessage>>)

  /** One input line and the answers the remote gives if it is sent. */
  datatype Round = Round(question: string, replies: Replies)

  /** What the program writes: a message line, the smiley after the second
      print, or a notice. */
  datatype Output = Shown(line: Line) | Smiley | Notice(branch: Branch)

  /** How the session ends: "exit" was typed, a remote call failed, a
      message without content made the printer panic, the last run was
      still pending when its answers ran out, or the input lines ran out. */
  datatype End = Exited | Aborted(error: ApiError) | Panicked(id: Id) | StillPolling | InputEnded

  /** Whether the loop goes on after a round. */
  datatype Next = Continue | Stop(end: End)

  function ShowAll(lines: seq<Line>): (out: seq<Output>) {
    seq(|lines|, k requires 0 <= k < |lines| => Shown(lines[k]))
  }

  /** The ids of the message lines written. */
  function ShownIds(out: seq<Output>): (ids: seq<Id>)
    decreases |out|
  {
    if out == [] then []
    else ShownIds(out[..|out| - 1]) + if out[|out| - 1].Shown? then [out[|out| - 1].line.id] else []
  }

  lemma {:induction false} ShownIdsAppend(a: seq<Output>, b: seq<Output>)
    ensures ShownIds(a + b) == ShownIds(a) + ShownIds(b)
    decreases |b|
  {
    if b != [] {
      assert (a + b)[..|a + b| - 1] == a + b[..|b| - 1];
      ShownIdsAppend(a, b[..|b| - 1]);
    } else {
      assert a + b == a;
    }
  }

  lemma {:induction false} ShownIdsOfLines(lines: seq<Line>)
    ensures ShownIds(ShowAll(lines)) == LineIds(lines)
    decreases |lines|
  {
    if lines != [] {
      var init := lines[..|lines| - 1];
      assert ShowAll(lines)[..|lines| - 1] == ShowAll(init);
      ShownIdsOfLines(init);
      assert LineIds(lines) == LineIds(init) + [lines[|lines| - 1].id];
    }
  }

  function Repeat(c: Call, n: nat): (calls: seq<Call>) {
    seq(n, _ => c)
  }

  function Flatten(turns: seq<seq<Call>>): (calls: seq<Call>)
    decreases |turns|
  {
    if turns == [] then [] else turns[0] + Flatten(turns[1..])
  }

  /** The calls after a run `run` was started, when none fails: one status
      request per poll, then a second listing only when the dispatch says
      to print again. */
  function RunPlan(d: Dispatcher, thread: Id, run: Id, polls: seq<Result<string>>): (plan: seq<Call>)
    ensures |plan| >= PollOutcomeOf(polls).fetches
  {
    var p := PollOutcomeOf(polls);
    Repeat(GetRun(thread, run), p.fetches)
    + if p.Returned? && Route(d, p.status) == PrintAgain then [ListMessages(thread)] else []
  }

  /** The first three calls of a round: post the raw line, list messages,
      start a run. */
  function PlanHead(thread: Id, assistant: Id, round: Round): (head: seq<Call>) {
    [AddMessage(thread, round.question), ListMessages(thread), StartRun(thread, assistant)]
  }

  /** The calls of one round when none of them fails: `PlanHead`, then the
      calls of `RunPlan`.  The line posted is the raw input line, its
      trailing newline included. */
  function TurnPlan(d: Dispatcher, thread: Id, assistant: Id, round: Round): (plan: seq<Call>)
    ensures |plan| >= 3 && plan[0] == AddMessage(thread, round.question)
  {
    PlanHead(thread, assistant, round)
    + if round.replies.run.Ok? then RunPlan(d, thread, round.replies.run.value, round.replies.polls) else []
  }

  lemma HeadInPlan(d: Dispatcher, thread: Id, assistant: Id, round: Round, k: nat)
    requires k <= 3
    ensures PlanHead(thread, assistant, round)[..k] <= TurnPlan(d, thread, assistant, round)
  {
    assert TurnPlan(d, thread, assistant, round)[..k] == PlanHead(thread, assistant, round)[..k];
  }

  lemma RestInPlan(d: Dispatcher, thread: Id, assistant: Id, round: Round, rest: seq<Call>)
    requires round.replies.run.Ok?
    requires rest <= RunPlan(d, thread, round.replies.run.value, round.replies.polls)
    ensures PlanHead(thread, assistant, round) + rest <= TurnPlan(d, thread, assistant, round)
  {
    var tail := RunPlan(d, thread, round.replies.run.value, round.replies.polls);
    assert TurnPlan(d, thread, assistant, round) == PlanHead(thread, assistant, round) + tail;
    assert tail == rest + tail[|rest|..];
    assert TurnPlan(d, thread, assistant, round) == (PlanHead(thread, assistant, round) + rest) + tail[|rest|..];
  }

  /** What ends a round's output when the loop goes on. */
  function Closing(b: Branch): (o: Output) {
    if b == PrintAgain then Smiley else Notice(b)
  }

  /** The id pushed but not printed when a session ends on a panic. */
  function Dropped(end: End): (ids: seq<Id>) {
    if end.Panicked? then [end.id] else []
  }

  /** The id pushed but not printed when a step stops on a panic. */
  function Unprinted(next: Next): (ids: seq<Id>) {
    if next.Stop? then Dropped(next.end) else []
  }

  /** The result of a step of a round: the calls made, what was written,
      whether the loop goes on, and the list of printed ids afterwards. */
  datatype Outcome = Outcome(calls: seq<Call>, out: seq<Output>, next: Next, ids: seq<Id>)

  /** One call of `print_messages` inside a round, from the printed ids
      `seen`: list the messages, write the lines of the walk, and stop on a
      failed listing or on the panic. */
  function PrintStep(thread: Id, listing: Result<seq<ListedMessage>>, seen: seq<Id>): (r: Outcome) {
    match listing
    case Err(e) => Outcome([ListMessages(thread)], [], Stop(Aborted(e)), seen)
    case Ok(data) =>
      var w := WalkMessages(seen, data);
      Outcome([ListMessages(thread)], ShowAll(w.lines),
              if w.panicked then Stop(Panicked(w.seen[|w.seen| - 1])) else Continue, w.seen)
  }

  /** A print makes one listing call, goes on exactly when the listing
      succeeds and the walk does not panic, and grows the list of printed
      ids by exactly the ids it writes (and the id of a panic), keeping it
      free of duplicates. */
  lemma PrintStepFacts(thread: Id, listing: Result<seq<ListedMessage>>, seen: seq<Id>)
    ensures var r := PrintStep(thread, listing, seen);
      r.calls == [ListMessages(thread)]
      && (r.next == Continue <==> listing.Ok? && !WalkMessages(seen, listing.value).panicked)
      && (r.next.Stop? ==> r.next.end.Aborted? || r.next.end.Panicked?)
      && r.ids == seen + ShownIds(r.out) + Unprinted(r.next)
      && (NoDup(seen) ==> NoDup(r.ids))
  {
    if listing.Ok? {
      var w := WalkMessages(seen, listing.value);
      WalkSplits(seen, listing.value);
      WalkKeepsNoDup(seen, listing.value);
      ShownIdsOfLines(w.lines);
    }
  }

  /** The first part of a round (src/main.rs lines 58-63): post the line,
      then print new messages. */
  function Posting(thread: Id, round: Round, seen: seq<Id>): (r: Outcome) {
    if round.replies.posted.Err? then
      Outcome([AddMessage(thread, round.question)], [], Stop(Aborted(round.replies.posted.error)), seen)
    else
      var s := PrintStep(thread, round.replies.before, seen);
      Outcome([AddMessage(thread, round.question)] + s.calls, s.out, s.next, s.ids)
  }

  /** The first part of a round posts the raw line, lists messages only if
      posting succeeded, goes on exactly when posting and listing succeed
      and the walk does not panic, and grows the list of printed ids by
      exactly the ids it writes. */
  lemma PostingFacts(thread: Id, round: Round, seen: seq<Id>)
    ensures var r := Posting(thread, round, seen);
      r.calls == [AddMessage(thread, round.question)]
                 + (if round.replies.posted.Ok? then [ListMessages(thread)] else [])
      && (r.next == Continue <==> round.replies.posted.Ok? && round.replies.before.Ok?
                                  && !WalkMessages(seen, round.replies.before.value).panicked)
      && (r.next.Stop? ==> r.next.end.Aborted? || r.next.end.Panicked?)
      && r.ids == seen + ShownIds(r.out) + Unprinted(r.next)
      && (NoDup(seen) ==> NoDup(r.ids))
  {
    PrintStepFacts(thread, round.replies.before, seen);
  }

  /** The part of a round after the run `run` was started (src/main.rs
      lines 71-85): wait for the run; a failed status request or a run that
      never settles stops the loop; otherwise print new messages again and
      the smiley, or print a notice, as the dispatch `d` says. */
  function AfterRun(d: Dispatcher, thread: Id, run: Id, replies: Replies, seen: seq<Id>): (r: Outcome) {
    var p := PollOutcomeOf(replies.polls);
    var gets := Repeat(GetRun(thread, run), p.fetches);
    match p
    case Failed(e, _) => Outcome(gets, [], Stop(Aborted(e)), seen)
    case Unresolved(_) => Outcome(gets, [], Stop(StillPolling), seen)
    case Returned(status, _) =>
      var b := Route(d, status);
      if b == PrintAgain then
        var s := PrintStep(thread, replies.after, seen);
        Outcome(gets + s.calls, s.out + if s.next == Continue then [Closing(b)] else [], s.next, s.ids)
      else
        Outcome(gets, [Closing(b)], Continue, seen)
  }

  /** After the run was started, the calls follow the run's plan and stop
      at the first failure; the round goes on exactly when the poller
      returned a status and, if the dispatch prints again, that print
      succeeds; it then made all the calls of the plan and wrote the
      closing output last. */
  lemma AfterRunFollowsPlan(d: Dispatcher, thread: Id, run: Id, replies: Replies, seen: seq<Id>)
    ensures var r := AfterRun(d, thread, run, replies, seen);
      var p := PollOutcomeOf(replies.polls);
      r.calls <= RunPlan(d, thread, run, replies.polls)
      && (r.next == Continue <==>
            p.Returned? && (Route(d, p.status) == PrintAgain ==>
                              replies.after.Ok? && !WalkMessages(seen, replies.after.value).panicked))
      && (r.next == Continue ==>
            r.calls == RunPlan(d, thread, run, replies.polls)
            && r.out != [] && r.out[|r.out| - 1] == Closing(Route(d, p.status)))
      && (r.next.Stop? ==> r.next.end.Aborted? || r.next.end.Panicked? || r.next.end == StillPolling)
  {
    var p := PollOutcomeOf(replies.polls);
    if p.Returned? && Route(d, p.status) == PrintAgain {
      PrintStepFacts(thread, replies.after, seen);
    }
  }

  /** After the run was started, the list of printed ids grows by exactly
      the ids written (and the id of a panic), keeping it free of
      duplicates. */
  lemma AfterRunKeepsIds(d: Dispatcher, thread: Id, run: Id, replies: Replies, seen: seq<Id>)
    ensures var r := AfterRun(d, thread, run, replies, seen);
      r.ids == seen + ShownIds(r.out) + Unprinted(r.next) && (NoDup(seen) ==> NoDup(r.ids))
  {
    var p := PollOutcomeOf(replies.polls);
    if p.Returned? && Route(d, p.status) == PrintAgain {
      var s := PrintStep(thread, replies.after, seen);
      PrintStepFacts(thread, replies.after, seen);
      ShownIdsAppend(s.out, if s.next == Continue then [Closing(PrintAgain)] else []);
    }
  }

  /** Every call of a round succeeds and neither print panics. */
  predicate RoundSucceeds(d: Dispatcher, round: Round, seen: seq<Id>) {
    var q := round.replies;
    q.posted.Ok? && q.before.Ok? && !WalkMessages(seen, q.before.value).panicked
    && q.run.Ok? && PollOutcomeOf(q.polls).Returned?
    && (Route(d, PollOutcomeOf(q.polls).status) == PrintAgain ==>
          q.after.Ok? && !WalkMessages(WalkMessages(seen, q.before.value).seen, q.after.value).panicked)
  }

  /** One round of the loop for a line that is not "exit" (src/main.rs
      lines 58-85), from the printed ids `seen`. */
  function RoundOf(d: Dispatcher, thread: Id, assistant: Id, round: Round, seen: seq<Id>): (r: Outcome) {
    var first := Posting(thread, round, seen);
    if first.next.Stop? then first
    else if round.replies.run.Err? then
      Outcome(first.calls + [StartRun(thread, assistant)], first.out,
              Stop(Aborted(round.replies.run.error)), first.ids)
    else
      var rest := AfterRun(d, thread, round.replies.run.value, round.replies, first.ids);
      Outcome(first.calls + [StartRun(thread, assistant)] + rest.calls, first.out + rest.out, rest.next, rest.ids)
  }

  /** A round's calls are a non-empty prefix of its plan, stopping at the
      first failed call or panic; a round that goes on made all the calls
      of its plan and wrote the closing output for the poller's status
      last. */
  lemma RoundFollowsPlan(d: Dispatcher, thread: Id, assistant: Id, round: Round, seen: seq<Id>)
    ensures var r := RoundOf(d, thread, assistant, round, seen);
      r.calls != [] && r.calls <= TurnPlan(d, thread, assistant, round)
      && (r.next == Continue ==>
            r.calls == TurnPlan(d, thread, assistant, round) && r.out != []
            && r.out[|r.out| - 1] == Closing(Route(d, PollOutcomeOf(round.replies.polls).status)))
  {
    var first := Posting(thread, round, seen);
    PostingFacts(thread, round, seen);
    if first.next.Stop? {
      HeadInPlan(d, thread, assistant, round, |first.calls|);
    } else if round.replies.run.Err? {
      HeadInPlan(d, thread, assistant, round, 3);
    } else {
      var rest := AfterRun(d, thread, round.replies.run.value, round.replies, first.ids);
      AfterRunFollowsPlan(d, thread, round.replies.run.value, round.replies, first.ids);
      assert first.calls + [StartRun(thread, assistant)] == PlanHead(thread, assistant, round);
      RestInPlan(d, thread, assistant, round, rest.calls);
    }
  }

  /** The loop goes on after a round exactly when the round succeeds;
      otherwise a call failed, a print panicked or the run never
      settled. */
  lemma RoundGoesOn(d: Dispatcher, thread: Id, assistant: Id, round: Round, seen: seq<Id>)
    ensures var r := RoundOf(d, thread, assistant, round, seen);
      (r.next == Continue <==> RoundSucceeds(d, round, seen))
      && (r.next.Stop? ==> r.next.end.Aborted? || r.next.end.Panicked? || r.next.end == StillPolling)
  {
    var first := Posting(thread, round, seen);
    PostingFacts(thread, round, seen);
    if first.next == Continue && round.replies.run.Ok? {
      AfterRunFollowsPlan(d, thread, round.replies.run.value, round.replies, first.ids);
      assert first.ids == WalkMessages(seen, round.replies.before.value).seen;
    }
  }

  /** A round grows the shared list of printed ids by exactly the ids it
      writes (and the id of a panic), and keeps it free of duplicates. */
  lemma RoundKeepsIds(d: Dispatcher, thread: Id, assistant: Id, round: Round, seen: seq<Id>)
    ensures var r := RoundOf(d, thread, assistant, round, seen);
      r.ids == seen + ShownIds(r.out) + Unprinted(r.next) && (NoDup(seen) ==> NoDup(r.ids))
  {
    var first := Posting(thread, round, seen);
    PostingFacts(thread, round, seen);
    if first.next == Continue && round.replies.run.Ok? {
      var rest := AfterRun(d, thread, round.replies.run.value, round.replies, first.ids);
      AfterRunKeepsIds(d, thread, round.replies.run.value, round.replies, first.ids);
      ShownIdsAppend(first.out, rest.out);
      SeenGrowsBy(seen, ShownIds(first.out), first.ids, ShownIds(rest.out), Unprinted(rest.next), rest.ids);
    }
  }

  lemma SeenGrowsBy(s0: seq<Id>, a: seq<Id>, s1: seq<Id>, b: seq<Id>, u: seq<Id>, s2: seq<Id>)
    requires s1 == s0 + a && s2 == s1 + b + u
    ensures s2 == s0 + (a + b) + u
  {
  }

  /** The part of a round after the run was started, on the shared list of
      printed ids. */
  method AwaitRun(d: Dispatcher, thread: Id, run: Id, replies: Replies, seen: SeenIds)
    returns (calls: seq<Call>, out: seq<Output>, next: Next)
    modifies seen
    ensures Outcome(calls, out, next, seen.ids) == AfterRun(d, thread, run, replies, old(seen.ids))
  {
    var p := WaitForCompletion(replies.polls);
    calls := Repeat(GetRun(thread, run), p.fetches);
    out := [];
    if p.Failed? {
      return calls, out, Stop(Aborted(p.error));
    } else if p.Unresolved? {
      return calls, out, Stop(StillPolling);
    }
    var branch := Route(d, p.status);
    if branch == PrintAgain {
      calls := calls + [ListMessages(thread)];
      var lines, status := PrintMessages(replies.after, seen);
      out := ShowAll(lines);
      if status.FetchFailed? {
        return calls, out, Stop(Aborted(status.error));
      } else if status.IndexOutOfBounds? {
        return calls, out, Stop(Panicked(status.id));
      }
    }
    out := out + [Closing(branch)];
    next := Continue;
  }

  /** The first part of a round, on the shared list of printed ids. */
  method PostAndPrint(thread: Id, round: Round, seen: SeenIds)
    returns (calls: seq<Call>, out: seq<Output>, next: Next)
    modifies seen
    ensures Outcome(calls, out, next, seen.ids) == Posting(thread, round, old(seen.ids))
  {
    calls := [AddMessage(thread, round.question)];
    out := [];
    if round.replies.posted.Err? {
      return calls, out, Stop(Aborted(round.replies.posted.error));
    }
    calls := calls + [ListMessages(thread)];
    var lines, status := PrintMessages(round.replies.before, seen);
    out := ShowAll(lines);
    if status.FetchFailed? {
      next := Stop(Aborted(status.error));
    } else if status.IndexOutOfBounds? {
      next := Stop(Panicked(status.id));
    } else {
      next := Continue;
    }
  }

  /** One round of the loop, on the shared list of printed ids. */
  method Exchange(d: Dispatcher, thread: Id, assistant: Id, round: Round, seen: SeenIds)
    returns (calls: seq<Call>, out: seq<Output>, next: Next)
    modifies seen
    ensures Outcome(calls, out, next, seen.ids) == RoundOf(d, thread, assistant, round, old(seen.ids))
  {
    calls, out, next := PostAndPrint(thread, round, seen);
    if next == Continue {
      calls := calls + [StartRun(thread, assistant)];
      if round.replies.run.Err? {
        next := Stop(Aborted(round.replies.run.error));
      } else {
        var rest, more, n := AwaitRun(d, thread, round.replies.run.value, round.replies, seen);
        calls := calls + rest;
        out := out + more;
        next := n;
      }
    }
  }

  /** As written, a round whose run requires action and that otherwise
      succeeds ends with the "unknown error" notice. */
  lemma AsWrittenActionRunReportedUnknown(thread: Id, assistant: Id, round: Round, seen: seq<Id>)
    requires RoundSucceeds(AsWritten, round, seen)
    requires PollOutcomeOf(round.replies.polls).status == "requires_action"
    ensures var r := RoundOf(AsWritten, thread, assistant, round, seen);
      r.out != [] && r.out[|r.out| - 1] == Notice(UnknownErrorNotice)
  {
    RoundGoesOn(AsWritten, thread, assistant, round, seen);
    RoundFollowsPlan(AsWritten, thread, assistant, round, seen);
  }

  /** The two dispatches make the same calls, go on alike and print the
      same ids in every round; the outputs are equal, or differ only in
      the notice that ends them: "unknown error" as written,
      "requires action" when corrected. */
  lemma RoundsAgree(thread: Id, assistant: Id, round: Round, seen: seq<Id>)
    ensures var a := RoundOf(AsWritten, thread, assistant, round, seen);
      var c := RoundOf(Corrected, thread, assistant, round, seen);
      a.calls == c.calls && a.next == c.next && a.ids == c.ids && ShownIds(a.out) == ShownIds(c.out)
      && (a.out == c.out
          || (|a.out| == |c.out| > 0 && a.out[..|a.out| - 1] == c.out[..|c.out| - 1]
              && a.out[|a.out| - 1] == Notice(UnknownErrorNotice)
              && c.out[|c.out| - 1] == Notice(RequiresActionNotice)))
  {
    var p := PollOutcomeOf(round.replies.polls);
    ReturnsOnlyTerminal(round.replies.polls);
    if p.Returned? {
      DispatchesAgreeOnCalls(p.status);
      if p.status != "completed" {
        assert Route(AsWritten, p.status) == UnknownErrorNotice;
        assert Route(Corrected, p.status) == RequiresActionNotice;
      }
    }
  }

  // ---------------------------------------------------------------------
  // The session
  // ---------------------------------------------------------------------

  /** The result of a session: how it ended, the calls made, what was
      written, and the final list of printed ids. */
  datatype Session = Session(end: End, calls: seq<Call>, out: seq<Output>, ids: seq<Id>)

  /** The loop of `main` over the input lines from `rounds[from]` on,
      with the printed ids `seen`: it stops when the lines run out, at the
      first "exit" line, or at the first round that stops. */
  function SessionOf(d: Dispatcher, thread: Id, assistant: Id, rounds: seq<Round>, from: nat, seen: seq<Id>): (s: Session)
    requires from <= |rounds|
    decreases |rounds| - from, 2
  {
    if from == |rounds| then Session(InputEnded, [], [], seen)
    else OnLine(d, thread, assistant, rounds, from, seen)
  }

  /** The session from the line `rounds[from]`: the exit test, else the
      round. */
  function OnLine(d: Dispatcher, thread: Id, assistant: Id, rounds: seq<Round>, from: nat, seen: seq<Id>): (s: Session)
    requires from < |rounds|
    decreases |rounds| - from, 1
  {
    if IsExit(rounds[from].question) then Session(Exited, [], [], seen)
    else Proceed(d, thread, assistant, rounds, from, seen)
  }

  /** The session from a line that is a question: its round, then, if the
      round lets the loop go on, the session from the next line. */
  function Proceed(d: Dispatcher, thread: Id, assistant: Id, rounds: seq<Round>, from: nat, seen: seq<Id>): (s: Session)
    requires from < |rounds|
    decreases |rounds| - from, 0
  {
    var r := RoundOf(d, thread, assistant, rounds[from], seen);
    if r.next.Stop? then Session(r.next.end, r.calls, r.out, r.ids)
    else
      var s := SessionOf(d, thread, assistant, rounds, from + 1, r.ids);
      Session(s.end, r.calls + s.calls, r.out + s.out, s.ids)
  }

  /** The calls of each round the session took. */
  ghost function SessionTurns(d: Dispatcher, thread: Id, assistant: Id, rounds: seq<Round>, from: nat, seen: seq<Id>): (turns: seq<seq<Call>>)
    requires from <= |rounds|
    decreases |rounds| - from
  {
    if from == |rounds| || IsExit(rounds[from].question) then []
    else
      var r := RoundOf(d, thread, assistant, rounds[from], seen);
      [r.calls] + if r.next.Stop? then [] else SessionTurns(d, thread, assistant, rounds, from + 1, r.ids)
  }

  /** The list of printed ids shared by the whole session grows by exactly
      the ids written (and the id of a panic). */
  lemma {:induction false} SessionKeepsIds(d: Dispatcher, thread: Id, assistant: Id, rounds: seq<Round>, from: nat, seen: seq<Id>)
    requires from <= |rounds|
    ensures var s := SessionOf(d, thread, assistant, rounds, from, seen);
      s.ids == seen + ShownIds(s.out) + Dropped(s.end)
    decreases |rounds| - from
  {
    if from < |rounds| && !IsExit(rounds[from].question) {
      assert SessionOf(d, thread, assistant, rounds, from, seen) == Proceed(d, thread, assistant, rounds, from, seen);
      var r := RoundOf(d, thread, assistant, rounds[from], seen);
      RoundKeepsIds(d, thread, assistant, rounds[from], seen);
      if r.next == Continue {
        SessionKeepsIds(d, thread, assistant, rounds, from + 1, r.ids);
        IdsAfter(seen, r, SessionOf(d, thread, assistant, rounds, from + 1, r.ids));
      }
    }
  }

  /** A round that goes on, then the rest of the session: the ids each adds
      add up. */
  lemma IdsAfter(seen: seq<Id>, r: Outcome, s: Session)
    requires r.next == Continue && r.ids == seen + ShownIds(r.out) + Unprinted(r.next)
    requires s.ids == r.ids + ShownIds(s.out) + Dropped(s.end)
    ensures s.ids == seen + ShownIds(r.out + s.out) + Dropped(s.end)
  {
    ShownIdsAppend(r.out, s.out);
    SeenGrowsBy(seen, ShownIds(r.out), r.ids, ShownIds(s.out), Dropped(s.end), s.ids);
  }

  /** A session keeps the list of printed ids free of duplicates, so with
      the list created empty no message is printed twice in a session. */
  lemma {:induction false} SessionKeepsNoDup(d: Dispatcher, thread: Id, assistant: Id, rounds: seq<Round>, from: nat, seen: seq<Id>)
    requires from <= |rounds| && NoDup(seen)
    ensures NoDup(SessionOf(d, thread, assistant, rounds, from, seen).ids)
    decreases |rounds| - from
  {
    if from < |rounds| && !IsExit(rounds[from].question) {
      assert SessionOf(d, thread, assistant, rounds, from, seen) == Proceed(d, thread, assistant, rounds, from, seen);
      var r := RoundOf(d, thread, assistant, rounds[from], seen);
      RoundKeepsIds(d, thread, assistant, rounds[from], seen);
      if r.next == Continue {
        SessionKeepsNoDup(d, thread, assistant, rounds, from + 1, r.ids);
      }
    }
  }

  /** The lines `rounds[from]` to `rounds[from + |turns| - 1]` were not
      "exit" and their rounds made all the calls of their plans. */
  ghost predicate Completed(d: Dispatcher, thread: Id, assistant: Id, rounds: seq<Round>, from: nat, turns: seq<seq<Call>>)
    requires from + |turns| <= |rounds|
  {
    forall k :: 0 <= k < |turns| ==>
      !IsExit(rounds[from + k].question) && turns[k] == TurnPlan(d, thread, assistant, rounds[from + k])
  }

  lemma CompletedCons(d: Dispatcher, thread: Id, assistant: Id, rounds: seq<Round>, from: nat, c: seq<Call>, turns: seq<seq<Call>>)
    requires from + 1 + |turns| <= |rounds|
    requires !IsExit(rounds[from].question) && c == TurnPlan(d, thread, assistant, rounds[from])
    requires Completed(d, thread, assistant, rounds, from + 1, turns)
    ensures Completed(d, thread, assistant, rounds, from, [c] + turns)
  {
    forall k | 1 <= k < |turns| + 1
      ensures !IsExit(rounds[from + k].question)
              && ([c] + turns)[k] == TurnPlan(d, thread, assistant, rounds[from + k])
    {
      assert ([c] + turns)[k] == turns[k - 1];
    }
  }

  /** How a session over the lines from `rounds[from]` on ends, with
      `turns` the calls of each round taken: "exit" on the line after them
      when every round taken ran its whole plan; the lines run out after
      all of them ran their whole plan; or the last round taken stopped
      part-way through its plan (a failed request, the panic of the
      printer, a run that never settles) after every earlier round ran its
      whole plan. */
  ghost predicate Conducted(d: Dispatcher, thread: Id, assistant: Id, rounds: seq<Round>, from: nat, end: End, turns: seq<seq<Call>>) {
    from + |turns| <= |rounds| &&
    if end == Exited then
      from + |turns| < |rounds| && IsExit(rounds[from + |turns|].question)
      && Completed(d, thread, assistant, rounds, from, turns)
    else if end == InputEnded then
      from + |turns| == |rounds| && Completed(d, thread, assistant, rounds, from, turns)
    else
      turns != [] && Completed(d, thread, assistant, rounds, from, turns[..|turns| - 1])
      && !IsExit(rounds[from + |turns| - 1].question) && turns[|turns| - 1] != []
      && turns[|turns| - 1] <= TurnPlan(d, thread, assistant, rounds[from + |turns| - 1])
  }

  /** A round that ran its whole plan, before a session part that
      `Conducted` describes, gives a longer session part it describes. */
  lemma ConductedCons(d: Dispatcher, thread: Id, assistant: Id, rounds: seq<Round>, from: nat, c: seq<Call>,
                      end: End, turns: seq<seq<Call>>)
    requires from < |rounds| && !IsExit(rounds[from].question)
    requires c == TurnPlan(d, thread, assistant, rounds[from])
    requires Conducted(d, thread, assistant, rounds, from + 1, end, turns)
    ensures Conducted(d, thread, assistant, rounds, from, end, [c] + turns)
  {
    var all := [c] + turns;
    if end == Exited || end == InputEnded {
      CompletedCons(d, thread, assistant, rounds, from, c, turns);
    } else {
      assert all[..|all| - 1] == [c] + turns[..|turns| - 1];
      CompletedCons(d, thread, assistant, rounds, from, c, turns[..|turns| - 1]);
      assert all[|all| - 1] == turns[|turns| - 1];
    }
  }

  /** A round that stopped part-way through its plan is a session part
      `Conducted` describes. */
  lemma ConductedStop(d: Dispatcher, thread: Id, assistant: Id, rounds: seq<Round>, from: nat, c: seq<Call>, end: End)
    requires from < |rounds| && !IsExit(rounds[from].question)
    requires c != [] && c <= TurnPlan(d, thread, assistant, rounds[from])
    requires end != Exited && end != InputEnded
    ensures Conducted(d, thread, assistant, rounds, from, end, [c])
  {
    assert [c][..0] == [];
  }

  /** The calls of a session are those of its rounds, in order, each
      round's calls following its plan as `Conducted` says. */
  lemma {:induction false} SessionFollowsPlans(d: Dispatcher, thread: Id, assistant: Id, rounds: seq<Round>, from: nat, seen: seq<Id>)
    requires from <= |rounds|
    ensures var s := SessionOf(d, thread, assistant, rounds, from, seen);
      var turns := SessionTurns(d, thread, assistant, rounds, from, seen);
      s.calls == Flatten(turns) && Conducted(d, thread, assistant, rounds, from, s.end, turns)
    decreases |rounds| - from
  {
    if from < |rounds| && !IsExit(rounds[from].question) {
      assert SessionOf(d, thread, assistant, rounds, from, seen) == Proceed(d, thread, assistant, rounds, from, seen);
      var r := RoundOf(d, thread, assistant, rounds[from], seen);
      RoundFollowsPlan(d, thread, assistant, rounds[from], seen);
      RoundGoesOn(d, thread, assistant, rounds[from], seen);
      var turns := SessionTurns(d, thread, assistant, rounds, from, seen);
      if r.next.Stop? {
        assert turns == [r.calls];
        ConductedStop(d, thread, assistant, rounds, from, r.calls, r.next.end);
      } else {
        var s := SessionOf(d, thread, assistant, rounds, from + 1, r.ids);
        var ts := SessionTurns(d, thread, assistant, rounds, from + 1, r.ids);
        SessionFollowsPlans(d, thread, assistant, rounds, from + 1, r.ids);
        assert turns == [r.calls] + ts && turns[1..] == ts;
        ConductedCons(d, thread, assistant, rounds, from, r.calls, s.end, ts);
      }
    }
  }

  lemma ConcatAssoc<T>(a: seq<T>, b: seq<T>, c: seq<T>)
    ensures a + (b + c) == (a + b) + c
  {
  }

  lemma EmptyConcat<T>(a: seq<T>)
    ensures [] + a == a
  {
  }

  lemma ConcatEmpty<T>(a: seq<T>)
    ensures a + [] == a
  {
  }

  lemma NoDupPrefix(s: seq<Id>, t: seq<Id>)
    requires NoDup(s + t)
    ensures NoDup(s)
  {
    forall i, j | 0 <= i < j < |s| ensures s[i] != s[j] {
      assert s[i] == (s + t)[i] && s[j] == (s + t)[j];
    }
  }

  /** The session `s` after the calls `calls` and the output `out`. */
  function After(calls: seq<Call>, out: seq<Output>, s: Session): (t: Session) {
    Session(s.end, calls + s.calls, out + s.out, s.ids)
  }

  /** One step of the loop: a round that stops ends the session; a round
      that goes on leaves the rest of the session to the next line. */
  lemma SessionStep(d: Dispatcher, thread: Id, assistant: Id, rounds: seq<Round>, i: nat, seen: seq<Id>,
                    calls: seq<Call>, out: seq<Output>, r: Outcome)
    requires i < |rounds| && !IsExit(rounds[i].question)
    requires r == RoundOf(d, thread, assistant, rounds[i], seen)
    ensures var whole := After(calls, out, SessionOf(d, thread, assistant, rounds, i, seen));
      if r.next.Stop? then whole == Session(r.next.end, calls + r.calls, out + r.out, r.ids)
      else whole == After(calls + r.calls, out + r.out, SessionOf(d, thread, assistant, rounds, i + 1, r.ids))
  {
    assert SessionOf(d, thread, assistant, rounds, i, seen) == Proceed(d, thread, assistant, rounds, i, seen);
    if r.next == Continue {
      var s := SessionOf(d, thread, assistant, rounds, i + 1, r.ids);
      ConcatAssoc(calls, r.calls, s.calls);
      ConcatAssoc(out, r.out, s.out);
    }
  }

  /** One pass of the loop body: the exit test on `rounds[i]`, else its
      round, and where the whole session stands after it. */
  method Turn(d: Dispatcher, thread: Id, assistant: Id, rounds: seq<Round>, i: nat, seen: SeenIds,
              ghost calls: seq<Call>, ghost out: seq<Output>)
    returns (c: seq<Call>, o: seq<Output>, next: Next)
    requires i < |rounds|
    modifies seen
    ensures var whole := After(calls, out, SessionOf(d, thread, assistant, rounds, i, old(seen.ids)));
      if next.Stop? then whole == Session(next.end, calls + c, out + o, seen.ids)
      else whole == After(calls + c, out + o, SessionOf(d, thread, assistant, rounds, i + 1, seen.ids))
  {
    if IsExit(rounds[i].question) {
      return [], [], Stop(Exited);
    }
    ghost var ids := seen.ids;
    c, o, next := Exchange(d, thread, assistant, rounds[i], seen);
    SessionStep(d, thread, assistant, rounds, i, ids, calls, out, Outcome(c, o, next, seen.ids));
  }

  /** The loop of `main` after the assistant and the thread were created,
      with the list of printed ids created empty once and shared by every
      round (src/main.rs lines 29 and 43-86). */
  method Loop(d: Dispatcher, thread: Id, assistant: Id, rounds: seq<Round>)
    returns (end: End, calls: seq<Call>, out: seq<Output>)
    ensures var s := SessionOf(d, thread, assistant, rounds, 0, []);
      end == s.end && calls == s.calls && out == s.out
  {
    ghost var whole := SessionOf(d, thread, assistant, rounds, 0, []);
    calls, out := [], [];
    var seen := new SeenIds();
    var i := 0;
    EmptyConcat(whole.calls);
    EmptyConcat(whole.out);
    while i < |rounds|
      invariant 0 <= i <= |rounds|
      invariant whole == After(calls, out, SessionOf(d, thread, assistant, rounds, i, seen.ids))
    {
      var c, o, next := Turn(d, thread, assistant, rounds, i, seen, calls, out);
      calls, out := calls + c, out + o;
      if next.Stop? {
        return next.end, calls, out;
      }
      i := i + 1;
    }
    ConcatEmpty(calls);
    ConcatEmpty(out);
    end := InputEnded;
  }

  /** `main`: create the assistant and the thread, then run the loop.  With
      `AsWritten` this is the program; with `Corrected` it is the program
      with the dispatch fixed. */
  method Converse(d: Dispatcher, assistant: Result<Id>, thread: Result<Id>, rounds: seq<Round>)
    returns (end: End, calls: seq<Call>, out: seq<Output>, ghost turns: seq<seq<Call>>)
    ensures NoDup(ShownIds(out))
    ensures assistant.Err? ==> end == Aborted(assistant.error) && calls == [CreateAssistant] && out == []
    ensures assistant.Ok? && thread.Err? ==>
      end == Aborted(thread.error) && calls == [CreateAssistant, CreateThread] && out == []
    ensures assistant.Ok? && thread.Ok? ==>
      var s := SessionOf(d, thread.value, assistant.value, rounds, 0, []);
      end == s.end && calls == [CreateAssistant, CreateThread] + s.calls && out == s.out
      && calls == [CreateAssistant, CreateThread] + Flatten(turns)
      && Conducted(d, thread.value, assistant.value, rounds, 0, end, turns)
  {
    turns := [];
    if assistant.Err? {
      return Aborted(assistant.error), [CreateAssistant], [], turns;
    }
    if thread.Err? {
      return Aborted(thread.error), [CreateAssistant, CreateThread], [], turns;
    }
    var rest;
    end, rest, out := Loop(d, thread.value, assistant.value, rounds);
    calls := [CreateAssistant, CreateThread] + rest;
    ghost var s := SessionOf(d, thread.value, assistant.value, rounds, 0, []);
    SessionKeepsIds(d, thread.value, assistant.value, rounds, 0, []);
    SessionKeepsNoDup(d, thread.value, assistant.value, rounds, 0, []);
    assert s.ids == ShownIds(out) + Dropped(end);
    NoDupPrefix(ShownIds(out), Dropped(end));
    SessionFollowsPlans(d, thread.value, assistant.value, rounds, 0, []);
    turns := SessionTurns(d, thread.value, assistant.value, rounds, 0, []);
  }
}
