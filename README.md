# Console client for an assistant chat service — verified model of its local logic

The program is a small Rust console client for a hosted "assistants" chat
service. It creates an assistant and a conversation thread. It then reads
question lines from the terminal until the user types "exit". For each line
it does the following:

- posts the line to the thread;
- prints the thread's messages it has not printed before;
- starts a run of the assistant;
- polls the run until it is "completed" or "requires_action";
- if the run completed, prints the new messages again.

Everything else in the program is HTTP plumbing. This project models the
three pieces of local logic:

- **Printer** (`printer.dfy`) — `print_messages`. The listing arrives
  newest-first and is walked oldest-first. Ids already in the caller's
  `Vec<String>` of printed ids are skipped. Any other id is pushed, then
  `Role: text` is printed from the first content block. That block is
  `content[0]`, which panics when the content is empty.
  - `PrintMessages` is a method with a `while` loop over a `SeenIds` object
    whose `ids` field it updates in place.
  - It is proved against `WalkMessages`, a function that visits the listing
    one message at a time (`Visit`).
  - The lemmas about `WalkMessages` state the properties of the printer.
- **Poller** (`poller.dfy`) — the decision loop of `wait_for_completion`.
  - The remote run is a sequence of answers to the status requests, one per
    poll. Each answer is a status string or a failed request.
  - `WaitForCompletion` is the loop. `PollOutcomeOf` computes the same
    outcome recursively, and `Describes` states it independently: the first
    error or terminal status decides the outcome, and it decides the number
    of requests.
- **Conversation** (`conversation.dfy`) — `main`'s loop:
  - the exit test `question.trim().to_lowercase() == "exit"`;
  - the order of the remote calls in one round;
  - the dispatch on the poller's result;
  - the list of printed ids, created empty once and shared by every print of
    the session.

  Each remote call of a round takes its answer from a `Replies` record. A
  session is a sequence of `Round`s, each an input line with the answers it
  would get. The outputs are the calls made (`Call`), the text written
  (`Output`) and how the session ended (`End`).

  The methods `PostAndPrint`, `AwaitRun`, `Exchange`, `Turn`, `Loop` and
  `Converse` run the loop on a `SeenIds` object. Each is proved equal to a
  function of its inputs and of the old list of printed ids:
  - `Posting` (post, then print);
  - `AfterRun` (poll, then dispatch);
  - `RoundOf` (one round);
  - `SessionOf` (the whole loop).

  The lemmas about these functions state what a round and a session do.

  Every member of the round and of the session takes a `Dispatcher`:
  - `AsWritten` compares with `"req_action"`, as `main` does; with it the
    methods model the program as written;
  - `Corrected` compares with `"requires_action"`, the string the poller
    returns (see "## Findings").

`api_data.dfy` holds the records the client reads: message ids, roles and
content blocks with their text value. It also holds the failure of a remote
call (`ApiError`), which covers a transport or decode error. Every such
failure is propagated with `?` and ends `main`.

## Model

| member | source | states |
|---|---|---|
| Printer.Visit | src/functions_ai.rs:147-152 | One step of the walk: a seen id is skipped, an unseen id is pushed, and its line is printed or, with empty content, the walk panics. Its properties are proved by the lemmas on `WalkMessages`. |
| Printer.WalkMessages | src/functions_ai.rs:145-153 | The printed-id list before the loop is a prefix of the list after it. A panic always comes with a newly pushed id. |
| Printer.WalkAppendsFresh | src/functions_ai.rs:145-151 | The pushed ids are pairwise distinct. None of them was in the list before, and each is the id of some listed message. |
| Printer.WalkCovers | src/functions_ai.rs:145-151 | After a walk that did not panic, every listed id is in the printed-id list. |
| Printer.NewestVisitIsOldestOccurrence | src/functions_ai.rs:145-150 | Walking newest-first listings in reverse, an unseen id is pushed at its oldest listed occurrence. |
| Printer.WalkOrder | src/functions_ai.rs:145-151 | Pushed ids come in oldest-first order of their oldest listed occurrence. This is the reverse of server order. |
| Printer.WalkLines | src/functions_ai.rs:151-152 | One printed line per pushed id, in the same order. On a panic the last pushed id has no line. Each line shows the role and the `content[0]` text of the oldest message with that id, and that message's content is non-empty. |
| Printer.WalkPanics | src/functions_ai.rs:148-152 | The walk panics if and only if some listed id not yet printed has empty content at its oldest listed occurrence. |
| Printer.WalkOfSeen | src/functions_ai.rs:148-150 | A listing whose ids were all printed before prints nothing and leaves the list unchanged. |
| Printer.WalkIdempotent | src/functions_ai.rs:148-150 | Printing the same listing a second time prints nothing and leaves the list as the first call left it. |
| Printer.WalkKeepsNoDup | src/functions_ai.rs:148-151 | A list without duplicates stays without duplicates, even when the listing repeats an id. |
| Printer.PostedMessagePrintedOnce | src/functions_ai.rs:145-152 | When the walk does not panic, a listed message whose id was not printed before is printed, and no id is printed twice by one call. |
| Printer.WalkSplits | src/functions_ai.rs:151-152 | New list = old list + ids of the printed lines + (on a panic) the id that panicked. |
| Printer.WalkStopsAtPanic | src/functions_ai.rs:152 | Once the walk panics at a message, the messages after it in walking order are not visited. |
| Printer.SeenIds.constructor | src/main.rs:29 | The printed-id list starts empty. |
| Printer.PrintMessages | src/functions_ai.rs:140-157 | A failed listing returns its error and changes nothing. Otherwise the new list and the printed lines are those of `WalkMessages`. It returns normally exactly when there is no panic; on a panic it reports the offending id. The list grows by the printed ids (plus the offending id) and keeps having no duplicates. |
| Printer.SeenMessageSuppressed | src/functions_ai.rs:145-152 | With "m1" already printed, listing [m2, m1] prints only m2. Listing [m3, m2, m1] next prints only m3, and the list ends as [m1, m2, m3]. |
| Poller.PollOutcomeOf | src/functions_ai.rs:107-133 | The loop's outcome, one answer at a time: a failed request, "completed" or "requires_action" decides it; other statuses poll again. `PollOutcomeDescribed` proves it fits the independent description. |
| Poller.PollOutcomeDescribed | src/functions_ai.rs:107-133 | The poll-at-a-time outcome fits the independent description. The first answer that is an error or a terminal status decides it, after exactly (its position + 1) requests. With no such answer the loop is still polling. |
| Poller.DescriptionIsUnique | src/functions_ai.rs:107-133 | At most one outcome fits the description of a sequence of answers. |
| Poller.ReturnsOnlyTerminal | src/functions_ai.rs:123-130 | A returned string is only ever "completed" or "requires_action", and it is the answer to the last request made. |
| Poller.NonTerminalNeverReturns | src/functions_ai.rs:107-133 | With no "completed" or "requires_action" answer (for example "failed"), the loop never returns a status. Only a failed request ends it. |
| Poller.WaitForCompletion | src/functions_ai.rs:105-136 | The loop's outcome fits the description and equals `PollOutcomeOf`. |
| Poller.ThreePollsToCompletion | src/functions_ai.rs:123-124 | Answers "in_progress", "in_progress", "completed": returns "completed" after three requests. |
| Poller.ActionRequiredAtOnce | src/functions_ai.rs:126-129 | A first answer of "requires_action" returns at once, after one request. |
| Conversation.Trim | src/main.rs:53 | `trim`: drop leading, then trailing whitespace. `TrimStartShape`, `TrimEndShape` and the `OfPadded` lemmas state what it leaves. |
| Conversation.ToLower | src/main.rs:53 | `to_lowercase`, character by character. `ToLowerAt` states it. |
| Conversation.IsExit | src/main.rs:53 | The exit test on the raw line. `ExitCharacterized` states exactly which lines pass it. |
| Conversation.ToLowerAt | src/main.rs:53 | Lowercasing keeps the length and maps each character on its own. |
| Conversation.TrimStartShape | src/main.rs:53 | `trim_start` drops a whitespace-only prefix and stops at a non-whitespace character. |
| Conversation.TrimEndShape | src/main.rs:53 | `trim_end` drops a whitespace-only suffix and stops at a non-whitespace character. |
| Conversation.TrimStartOfPadded | src/main.rs:53 | Whitespace followed by a text starting with non-whitespace trims to that text. |
| Conversation.TrimEndOfPadded | src/main.rs:53 | A text ending with non-whitespace followed by whitespace trims to that text. |
| Conversation.ExitLettersAreNotWhitespace | src/main.rs:53 | A word that lowercases to "exit" has four characters, none of them whitespace. |
| Conversation.PaddedIsExit | src/main.rs:53-55 | "exit" in any case, with only whitespace around it, ends the loop. |
| Conversation.ExitIsPadded | src/main.rs:53-55 | Only such a line ends the loop. |
| Conversation.ExitCharacterized | src/main.rs:53-55 | A line ends the loop if and only if it is whitespace, then a four-letter word lowercasing to "exit", then whitespace. |
| Conversation.ExitExamples | src/main.rs:53-55 | "Exit\n", "  EXIT  " and "exit" end the loop. |
| Conversation.NotExitExamples | src/main.rs:53-55 | "exitnow" and "ex it" do not end the loop. |
| Conversation.DispatchAsWritten | src/main.rs:73-85 | The dispatch as written: "completed" prints again, "req_action" prints the action notice, anything else the unknown-error notice. |
| Conversation.Dispatch | src/main.rs:73-85 | The same dispatch comparing with "requires_action" (see "## Findings"). |
| Conversation.AsWrittenActionBranchUnreachable | src/main.rs:73-85 | As written, no status the poller returns reaches the "requires action" branch. A returned status goes to "Error desconocido" exactly when it is "requires_action". |
| Conversation.DispatchFollowsPoller | src/main.rs:73-85 | With the corrected comparison, "completed" and only it prints again. "requires_action" and only it prints the notice. The unknown-error branch is never taken for a returned status. |
| Conversation.DispatchesAgreeOnCalls | src/main.rs:73-85 | Both dispatches print again on the same results, so they make the same calls. They differ only on "requires_action" and "req_action". |
| Conversation.PlanHead | src/main.rs:58-67 | The first three calls of a round: post the raw line, list messages, start the run. |
| Conversation.RunPlan | src/main.rs:71-76 | The calls after the run started when none fails: one status request per poll, then a listing only when the dispatch prints again. There are at least as many calls as status requests. |
| Conversation.TurnPlan | src/main.rs:58-76 | The calls of a round when none fails: `PlanHead`, then `RunPlan` once the run started. It has at least three calls, the first posting the raw line. |
| Conversation.HeadInPlan | src/main.rs:58-67 | The first calls of a round, up to starting the run, are a prefix of the round's plan. |
| Conversation.RestInPlan | src/main.rs:58-76 | The first three calls followed by a prefix of the post-run calls are a prefix of the round's plan. |
| Conversation.Closing | src/main.rs:77-84 | What ends a round's output when the loop goes on: the smiley after the second print, else the notice of the branch taken. |
| Conversation.PrintStep | src/main.rs:62-63 | One `print_messages` call inside a round, here and at lines 75-76: a failed listing stops the loop with its error; otherwise the lines of `WalkMessages` are written and a panic stops the loop. `PrintStepFacts` states its properties. |
| Conversation.Posting | src/main.rs:58-63 | Post the raw line; a failed post stops the loop; otherwise `PrintStep`. `PostingFacts` states its properties. |
| Conversation.AfterRun | src/main.rs:71-85 | One status request per poll; a failed request or a run still pending stops the loop; otherwise the dispatch prints again (then the smiley) or writes its notice. `AfterRunFollowsPlan` and `AfterRunKeepsIds` state its properties. |
| Conversation.PrintStepFacts | src/main.rs:62-63 | A print inside a round makes one listing call. The round goes on exactly when the listing succeeds and the walk does not panic. A stop is a failed call or a panic. The id list grows by exactly the printed ids (plus the panicking id) and keeps having no duplicates. |
| Conversation.PostingFacts | src/main.rs:58-63 | The raw line is posted, then messages are listed only if posting succeeded. The round goes on exactly when posting and listing succeed and the walk does not panic. The id list grows by exactly the printed ids (plus the panicking id) and keeps having no duplicates. |
| Conversation.AfterRunFollowsPlan | src/main.rs:71-85 | The calls after the run started are a prefix of the run's plan. The round goes on exactly when the poller returned a status and, if the dispatch prints again, that print succeeds. It then made all the calls of the plan and wrote the smiley or the notice for the status last. A stop is a failed call, a panic or a run still pending. |
| Conversation.AfterRunKeepsIds | src/main.rs:73-79 | After the run started, the id list grows by exactly the printed ids (plus the panicking id) and keeps having no duplicates. |
| Conversation.RoundOf | src/main.rs:58-85 | One round as a function of the replies and of the old id list: post and print, start the run, then poll and dispatch. Every failure stops the loop with that failure. The lemmas below state its properties. |
| Conversation.RoundFollowsPlan | src/main.rs:58-85 | A round's calls are a non-empty prefix of its plan. A round that goes on made all the calls of its plan and wrote the smiley or the notice for the poller's status last. |
| Conversation.RoundGoesOn | src/main.rs:58-85 | The loop goes on after a round exactly when every call succeeds, no print panics and the poller returned a status. Otherwise a call failed, a print panicked or the run is still pending. |
| Conversation.RoundKeepsIds | src/main.rs:62-76 | A round grows the shared id list by exactly the ids it prints (plus the panicking id) and keeps it free of duplicates. |
| Conversation.AwaitRun | src/main.rs:71-85 | What it calls, writes and returns, and the new id list, are those of `AfterRun` on the old list. |
| Conversation.PostAndPrint | src/main.rs:58-63 | What it calls, writes and returns, and the new id list, are those of `Posting` on the old list. |
| Conversation.Exchange | src/main.rs:58-85 | What it calls, writes and returns, and the new id list, are those of `RoundOf` on the old list. |
| Conversation.AsWrittenActionRunReportedUnknown | src/main.rs:81-84 | As written, a round whose run requires action and whose calls all succeed ends with the "Error desconocido" notice. |
| Conversation.RoundsAgree | src/main.rs:73-85 | Under both dispatches a round makes the same calls, goes on alike and prints the same ids. Its outputs are equal, or equal up to the last one, which is "Error desconocido" as written and the action notice when corrected. |
| Conversation.SessionOf | src/main.rs:43-86 | The loop as a function of the lines and replies: it ends when the lines run out or at an "exit" line. Otherwise it runs the round, ends on a round that stops, and goes on with the round's id list. |
| Conversation.SessionKeepsIds | src/main.rs:29-86 | The list shared by the whole session grows by exactly the ids printed (plus the id of a panic). |
| Conversation.SessionKeepsNoDup | src/main.rs:29-86 | The shared list never holds an id twice, so no message is printed twice in a session. |
| Conversation.SessionFollowsPlans | src/main.rs:43-86 | A session's calls are the concatenated calls of its rounds. The loop stops on "exit" only at an exit line, after every earlier round ran its whole plan. Otherwise it stops part-way through a non-exit round, after every earlier round ran its whole plan, or it runs out of lines. |
| Conversation.Turn | src/main.rs:45-85 | One pass of the loop body: an "exit" line ends the session. Otherwise the round runs; a round that stops ends the session, and one that goes on leaves the rest of the session to the next line. |
| Conversation.Loop | src/main.rs:43-86 | How it ends, its calls and its output are those of `SessionOf` from the first line with the id list created empty. |
| Conversation.Converse | src/main.rs:20-86 | A failed assistant or thread creation ends the session before any line is read. Otherwise the session is `SessionOf`'s, after the two creation calls; it prints no id twice, and its calls follow the round plans as `SessionFollowsPlans` states. |

## Left out

- HTTP request construction, headers, JSON bodies and response decoding are not modelled. Every remote call is an input `Result<T>`, with `ApiError` standing for any `reqwest::Error`. The response structs (src/openai_api_data.rs) only shape the `ApiData` records.
- Loading the API key from the environment (`api_key`, dotenv) is not modelled. It is process-environment access.
- The five-second `sleep` before each status request, and async/await in general, are not modelled. They carry no logical content.
- Terminal I/O (prompt, flush, `read_line`) is not modelled. Input lines are given strings, and the welcome banner is not modelled.
- Conversation.Loop: the session is finite. When the given rounds run out the model ends with `InputEnded`. The program would instead go on reading, and at end of input `read_line` yields empty lines that it keeps posting as long as the posts succeed.
- Poller.WaitForCompletion: a run that never reaches a terminal status keeps the program polling forever. The model stops when the given answers run out and reports `Unresolved` (`StillPolling` for the session).
- `capitalize_first_letter` (src/functions_other.rs) is not part of this model. A printed `Line` carries the role as listed, not capitalized.
- The exit test lowercases ASCII letters only. Full Unicode `to_lowercase` is not modelled. `trim` uses Rust's full White_Space set.
- `println!`'s exact text is not modelled. A message line is the triple (id, role, text), and the smiley and the two notices are `Output` values.

## Findings

| source | as written | input that shows it | evidently intended | confidence | as-written member | corrected member |
|---|---|---|---|---|---|---|
| src/main.rs:81 | `main` compares the poller's result with `"req_action"`. `wait_for_completion` returns `"requires_action"` (src/functions_ai.rs:129), so this branch can never be taken. | A round whose first status answer is `"requires_action"`: the poller returns `"requires_action"` and `main` prints "Error desconocido" instead of "Ejecución requiere acción". | Compare with `"requires_action"`, so that a run needing action prints the action notice. | high (not executed) | Conversation.AsWrittenActionRunReportedUnknown | Conversation.DispatchFollowsPoller |
