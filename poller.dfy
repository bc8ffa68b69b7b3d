/** The decision loop of `wait_for_completion` (src/functions_ai.rs): poll
    the run until its status is "completed" or "requires_action", and
    return that status.  The remote run is modelled by the answers of the
    successive status requests, one per poll; the five-second sleep before
    each request is not modelled. */
module Poller {
  import opened ApiData

  /** The two statuses on which the loop returns. */
  predicate IsTerminal(status: string) {
    status == "completed" || status == "requires_action"
  }

  /** How the loop ends within the given answers, with the number of status
      requests made: it returns a status, it fails with the error of a
      request, or the answers run out while the run is still pending (the
      program would poll forever). */
  datatype PollOutcome =
    | Returned(status: string, fetches: nat)
    | Failed(error: ApiError, fetches: nat)
    | Unresolved(fetches: nat)

  /** None of the first `n` answers ends the loop. */
  predicate Pending(polls: seq<Result<string>>, n: nat)
    requires n <= |polls|
  {
    forall k :: 0 <= k < n ==> polls[k].Ok? && !IsTerminal(polls[k].value)
  }

  /** Independent description of the outcome: the first answer that is an
      error or a terminal status decides it, and the number of requests is
      that answer's position plus one. */
  predicate Describes(polls: seq<Result<string>>, r: PollOutcome) {
    match r
    case Returned(s, n) =>
      1 <= n <= |polls| && Pending(polls, n - 1) && polls[n - 1] == Ok(s) && IsTerminal(s)
    case Failed(e, n) =>
      1 <= n <= |polls| && Pending(polls, n - 1) && polls[n - 1] == Err(e)
    case Unresolved(n) =>
      n == |polls| && Pending(polls, n)
  }

  /** The outcome, one poll at a time. */
  function PollOutcomeOf(polls: seq<Result<string>>): (r: PollOutcome)
    decreases |polls|
  {
    if polls == [] then Unresolved(0)
    else match polls[0]
      case Err(e) => Failed(e, 1)
      case Ok(s) =>
        if s == "completed" then Returned("completed", 1)
        else if s == "requires_action" then Returned("requires_action", 1)
        else
          match PollOutcomeOf(polls[1..])
          case Returned(t, n) => Returned(t, n + 1)
          case Failed(e, n) => Failed(e, n + 1)
          case Unresolved(n) => Unresolved(n + 1)
  }

  /** The poll-at-a-time outcome is the one the first deciding answer
      describes. */
  lemma {:induction false} PollOutcomeDescribed(polls: seq<Result<string>>)
    ensures Describes(polls, PollOutcomeOf(polls))
  {
    if polls != [] && polls[0].Ok? && !IsTerminal(polls[0].value) {
      var tail := polls[1..];
      PollOutcomeDescribed(tail);
      var r := PollOutcomeOf(polls);
      var r' := PollOutcomeOf(tail);
      assert r.fetches == r'.fetches + 1;
      forall k | 1 <= k < r.fetches - (if r.Unresolved? then 0 else 1)
        ensures polls[k].Ok? && !IsTerminal(polls[k].value)
      {
        assert tail[k - 1] == polls[k];
      }
      if !r.Unresolved? {
        assert tail[r'.fetches - 1] == polls[r.fetches - 1];
      }
    }
  }

  /** At most one outcome fits the description of a sequence of answers. */
  lemma DescriptionIsUnique(polls: seq<Result<string>>, r1: PollOutcome, r2: PollOutcome)
    requires Describes(polls, r1) && Describes(polls, r2)
    ensures r1 == r2
  {
  }

  /** Whatever the answers, a returned status is "completed" or
      "requires_action" and equals the answer of the last request made. */
  lemma ReturnsOnlyTerminal(polls: seq<Result<string>>)
    ensures var r := PollOutcomeOf(polls);
      r.Returned? ==> (r.status == "completed" || r.status == "requires_action")
                      && 1 <= r.fetches <= |polls| && polls[r.fetches - 1] == Ok(r.status)
  {
    PollOutcomeDescribed(polls);
  }

  /** A run that never reaches a terminal status (a run that "failed", for
      one) keeps the loop polling for as long as the requests succeed. */
  lemma {:induction false} NonTerminalNeverReturns(polls: seq<Result<string>>)
    requires forall k :: 0 <= k < |polls| ==> polls[k] != Ok("completed") && polls[k] != Ok("requires_action")
    ensures !PollOutcomeOf(polls).Returned?
  {
    if polls != [] {
      NonTerminalNeverReturns(polls[1..]);
    }
  }

  /** The loop of `wait_for_completion`, each iteration consuming the answer
      of one status request. */
  method WaitForCompletion(polls: seq<Result<string>>) returns (r: PollOutcome)
    ensures Describes(polls, r)
    ensures r == PollOutcomeOf(polls)
  {
    var n := 0;
    while n < |polls|
      invariant 0 <= n <= |polls|
      invariant Pending(polls, n)
    {
      var answer := polls[n];
      n := n + 1;
      match answer
      case Err(e) =>
        r := Failed(e, n);
        PollOutcomeDescribed(polls);
        DescriptionIsUnique(polls, r, PollOutcomeOf(polls));
        return;
      case Ok(status) =>
        if status == "completed" {
          r := Returned("completed", n);
          PollOutcomeDescribed(polls);
          DescriptionIsUnique(polls, r, PollOutcomeOf(polls));
          return;
        } else if status == "requires_action" {
          r := Returned("requires_action", n);
          PollOutcomeDescribed(polls);
          DescriptionIsUnique(polls, r, PollOutcomeOf(polls));
          return;
        }
    }
    r := Unresolved(n);
    PollOutcomeDescribed(polls);
    DescriptionIsUnique(polls, r, PollOutcomeOf(polls));
  }

  /** Two "in_progress" answers and then "completed": the loop returns
      "completed" after exactly three requests. */
  method ThreePollsToCompletion() returns (r: PollOutcome)
    ensures r == Returned("completed", 3)
  {
    r := WaitForCompletion([Ok("in_progress"), Ok("in_progress"), Ok("completed"), Ok("completed")]);
  }

  /** "requires_action" on the first answer: the loop returns at once. */
  method ActionRequiredAtOnce() returns (r: PollOutcome)
    ensures r == Returned("requires_action", 1)
  {
    r := WaitForCompletion([Ok("requires_action"), Ok("in_progress")]);
  }
}
