/** `print_messages` (src/functions_ai.rs): fetch the thread's messages,
    walk them oldest-first, skip every id already in the caller's list of
    printed ids, and otherwise append the id and print `Role: text`, where
    text is the value of the first content block. */
module Printer {
  import opened ApiData

  /** One printed line: the id of the message it shows, the message's role
      as listed, and the value of its first content block.  (The program
      prints the role with its first letter capitalized; that helper is not
      part of this model.) */
  datatype Line = Line(id: Id, role: string, text: string)

  /** How a call of `print_messages` ends: normally, with the error of the
      listing request, or with the out-of-bounds panic of `content[0]` on
      the message with the given id. */
  datatype PrintStatus = Printed | FetchFailed(error: ApiError) | IndexOutOfBounds(id: Id)

  /** The state of the walk over a listing: the list of printed ids, the
      lines printed so far and whether the walk stopped on a panic. */
  datatype Walk = Walk(seen: seq<Id>, lines: seq<Line>, panicked: bool)

  predicate NoDup(s: seq<Id>) {
    forall i, j :: 0 <= i < j < |s| ==> s[i] != s[j]
  }

  function LineIds(lines: seq<Line>): (ids: seq<Id>) {
    seq(|lines|, k requires 0 <= k < |lines| => lines[k].id)
  }

  /** The line printed for a message with at least one content block. */
  function LineOf(m: ListedMessage): (l: Line)
    requires m.content != []
  {
    Line(m.id, m.role, m.content[0].text.value)
  }

  /** Listings come newest-first, so the oldest message with id `x` is the
      one with the greatest index; -1 when no message has that id. */
  function OldestIndex(data: seq<ListedMessage>, x: Id): (k: int)
    ensures -1 <= k < |data|
    ensures 0 <= k ==> data[k].id == x && forall j :: k < j < |data| ==> data[j].id != x
    ensures k == -1 ==> forall j :: 0 <= j < |data| ==> data[j].id != x
  {
    if data == [] then -1
    else
      var k := OldestIndex(data[1..], x);
      if 0 <= k then k + 1 else if data[0].id == x then 0 else -1
  }

  /** One iteration of the loop body on message `m`. */
  function Visit(w: Walk, m: ListedMessage): (r: Walk) {
    if w.panicked || m.id in w.seen then w
    else if m.content == [] then Walk(w.seen + [m.id], w.lines, true)
    else Walk(w.seen + [m.id], w.lines + [LineOf(m)], false)
  }

  /** The whole loop over a newest-first listing `data`, starting from the
      printed ids `seen`: `data[0]`, the newest message, is visited last.
      The old list is always a prefix of the new one, and a panic always
      comes with an appended id. */
  function WalkMessages(seen: seq<Id>, data: seq<ListedMessage>): (w: Walk)
    ensures seen <= w.seen
    ensures w.panicked ==> |seen| < |w.seen|
    decreases |data|
  {
    if data == [] then Walk(seen, [], false)
    else Visit(WalkMessages(seen, data[1..]), data[0])
  }

  /** The ids appended by the walk. */
  function Appended(seen: seq<Id>, data: seq<ListedMessage>): (ids: seq<Id>) {
    WalkMessages(seen, data).seen[|seen|..]
  }

  /** The appended ids are distinct, none was in the list before, and each
      is the id of a listed message. */
  lemma {:induction false} WalkAppendsFresh(seen: seq<Id>, data: seq<ListedMessage>)
    ensures NoDup(Appended(seen, data))
    ensures forall k :: 0 <= k < |Appended(seen, data)| ==>
              Appended(seen, data)[k] !in seen && 0 <= OldestIndex(data, Appended(seen, data)[k])
  {
    if data != [] {
      var w' := WalkMessages(seen, data[1..]);
      var add' := Appended(seen, data[1..]);
      WalkAppendsFresh(seen, data[1..]);
      assert w'.seen == seen + add';
      var add := Appended(seen, data);
      if add != add' {
        var x := data[0].id;
        assert add == add' + [x];
        assert x !in w'.seen;
        assert forall k :: 0 <= k < |add'| ==> add'[k] in w'.seen;
      }
    }
  }

  /** A walk that did not panic leaves every listed id in the list. */
  lemma {:induction false} WalkCovers(seen: seq<Id>, data: seq<ListedMessage>)
    requires !WalkMessages(seen, data).panicked
    ensures forall j :: 0 <= j < |data| ==> data[j].id in WalkMessages(seen, data).seen
  {
    if data != [] {
      WalkCovers(seen, data[1..]);
      var w' := WalkMessages(seen, data[1..]);
      var w := WalkMessages(seen, data);
      assert w'.seen <= w.seen;
      forall j | 1 <= j < |data| ensures data[j].id in w.seen {
        assert data[1..][j - 1] == data[j];
      }
    }
  }

  /** A message whose id is not in `seen` is, when the walk over the older
      messages `data[1..]` did not panic, the first occurrence of its id in
      oldest-first order exactly when it is newer than all its namesakes. */
  lemma NewestVisitIsOldestOccurrence(seen: seq<Id>, data: seq<ListedMessage>)
    requires data != []
    requires !WalkMessages(seen, data[1..]).panicked
    requires data[0].id !in WalkMessages(seen, data[1..]).seen
    ensures OldestIndex(data, data[0].id) == 0
  {
    WalkCovers(seen, data[1..]);
    assert OldestIndex(data[1..], data[0].id) == -1;
  }

  /** The ids are appended in oldest-first order of their oldest listed
      occurrence. */
  lemma {:induction false} WalkOrder(seen: seq<Id>, data: seq<ListedMessage>)
    ensures forall p, q :: 0 <= p < q < |Appended(seen, data)| ==>
              OldestIndex(data, Appended(seen, data)[p]) > OldestIndex(data, Appended(seen, data)[q])
  {
    if data != [] {
      var w' := WalkMessages(seen, data[1..]);
      var add' := Appended(seen, data[1..]);
      var add := Appended(seen, data);
      WalkOrder(seen, data[1..]);
      WalkAppendsFresh(seen, data[1..]);
      forall k | 0 <= k < |add'|
        ensures OldestIndex(data, add'[k]) == OldestIndex(data[1..], add'[k]) + 1 >= 1
      {
      }
      if add != add' {
        assert w'.seen == seen + add';
        assert add == add' + [data[0].id];
        NewestVisitIsOldestOccurrence(seen, data);
      }
    }
  }

  /** The printed lines follow the appended ids one for one, in the same
      order (all of them, or all but the last on a panic), and each shows
      the role and first text block of the oldest listed message with its
      id. */
  lemma {:induction false} WalkLines(seen: seq<Id>, data: seq<ListedMessage>)
    ensures var w := WalkMessages(seen, data);
      LineIds(w.lines) == if w.panicked then Appended(seen, data)[..|Appended(seen, data)| - 1]
                          else Appended(seen, data)
    ensures var w := WalkMessages(seen, data);
      forall k :: 0 <= k < |w.lines| ==>
        var j := OldestIndex(data, w.lines[k].id);
        0 <= j && data[j].content != [] && w.lines[k] == LineOf(data[j])
  {
    if data != [] {
      var w' := WalkMessages(seen, data[1..]);
      var w := WalkMessages(seen, data);
      var add' := Appended(seen, data[1..]);
      var add := Appended(seen, data);
      WalkLines(seen, data[1..]);
      assert w'.seen == seen + add';
      forall k | 0 <= k < |w'.lines|
        ensures var j := OldestIndex(data, w'.lines[k].id);
          0 <= j && data[j].content != [] && w'.lines[k] == LineOf(data[j])
      {
        var j' := OldestIndex(data[1..], w'.lines[k].id);
        assert data[1..][j'] == data[j' + 1];
      }
      if w != w' {
        var x := data[0].id;
        assert add == add' + [x];
        NewestVisitIsOldestOccurrence(seen, data);
        if data[0].content != [] {
          assert w.lines == w'.lines + [LineOf(data[0])];
          assert LineIds(w.lines) == LineIds(w'.lines) + [x];
        } else {
          assert add[..|add| - 1] == add';
        }
      }
    }
  }

  /** The walk panics exactly when some listed id that was not in the list
      has no content block in its oldest listed occurrence. */
  lemma {:induction false} WalkPanics(seen: seq<Id>, data: seq<ListedMessage>)
    ensures WalkMessages(seen, data).panicked <==>
      exists k :: 0 <= k < |data| && data[k].id !in seen
                  && OldestIndex(data, data[k].id) == k && data[k].content == []
  {
    if data != [] {
      var w' := WalkMessages(seen, data[1..]);
      var add' := Appended(seen, data[1..]);
      WalkPanics(seen, data[1..]);
      WalkAppendsFresh(seen, data[1..]);
      assert w'.seen == seen + add';
      if w'.panicked {
        var k' :| 0 <= k' < |data[1..]| && data[1..][k'].id !in seen
                   && OldestIndex(data[1..], data[1..][k'].id) == k' && data[1..][k'].content == [];
        assert data[1..][k'] == data[k' + 1];
      } else if data[0].id !in w'.seen && data[0].content == [] {
        NewestVisitIsOldestOccurrence(seen, data);
      } else {
        forall k | 0 <= k < |data| && data[k].id !in seen && OldestIndex(data, data[k].id) == k
          ensures data[k].content != []
        {
          if k != 0 {
            assert data[1..][k - 1] == data[k];
            assert OldestIndex(data[1..], data[k].id) == k - 1;
          }
        }
      }
    }
  }

  /** A listing whose ids are all in the list prints nothing and changes
      nothing. */
  lemma {:induction false} WalkOfSeen(seen: seq<Id>, data: seq<ListedMessage>)
    requires forall j :: 0 <= j < |data| ==> data[j].id in seen
    ensures WalkMessages(seen, data) == Walk(seen, [], false)
  {
    if data != [] {
      WalkOfSeen(seen, data[1..]);
    }
  }

  /** Printing the same listing twice: the second walk prints nothing and
      leaves the list as the first left it. */
  lemma WalkIdempotent(seen: seq<Id>, data: seq<ListedMessage>)
    requires !WalkMessages(seen, data).panicked
    ensures var once := WalkMessages(seen, data).seen;
      WalkMessages(once, data) == Walk(once, [], false)
  {
    WalkCovers(seen, data);
    WalkOfSeen(WalkMessages(seen, data).seen, data);
  }

  /** A list without duplicates keeps none, even when the listing repeats
      an id. */
  lemma WalkKeepsNoDup(seen: seq<Id>, data: seq<ListedMessage>)
    ensures NoDup(seen) ==> NoDup(WalkMessages(seen, data).seen)
  {
    var s := WalkMessages(seen, data).seen;
    var add := Appended(seen, data);
    WalkAppendsFresh(seen, data);
    assert s == seen + add;
    if NoDup(seen) {
      forall i, j | 0 <= i < j < |s| ensures s[i] != s[j] {
        if j >= |seen| && i < |seen| {
          assert s[j] == add[j - |seen|];
        } else if i >= |seen| {
          assert s[i] == add[i - |seen|] && s[j] == add[j - |seen|];
        }
      }
    }
  }

  /** If a walk after a message was posted finds its id listed and not yet
      printed, and the walk does not panic, that message is printed exactly
      once (the round trip of posting and listing). */
  lemma PostedMessagePrintedOnce(seen: seq<Id>, data: seq<ListedMessage>, posted: Id)
    requires posted !in seen
    requires 0 <= OldestIndex(data, posted)
    requires !WalkMessages(seen, data).panicked
    ensures posted in LineIds(WalkMessages(seen, data).lines)
    ensures NoDup(LineIds(WalkMessages(seen, data).lines))
  {
    var w := WalkMessages(seen, data);
    WalkCovers(seen, data);
    WalkLines(seen, data);
    WalkAppendsFresh(seen, data);
    var j := OldestIndex(data, posted);
    assert posted in w.seen;
    var i :| 0 <= i < |w.seen| && w.seen[i] == posted;
    assert LineIds(w.lines)[i - |seen|] == posted;
  }

  /** The list after a walk is the list before, then the ids of the printed
      lines, then (on a panic) the id of the message that panicked. */
  lemma WalkSplits(seen: seq<Id>, data: seq<ListedMessage>)
    ensures var w := WalkMessages(seen, data);
      w.seen == seen + LineIds(w.lines) + if w.panicked then [w.seen[|w.seen| - 1]] else []
  {
    var w := WalkMessages(seen, data);
    var add := Appended(seen, data);
    assert w.seen == seen + add;
    WalkLines(seen, data);
    var ids := LineIds(w.lines);
    if w.panicked {
      assert ids == add[..|add| - 1];
      assert add == ids + [w.seen[|w.seen| - 1]];
    } else {
      assert ids == add;
    }
  }

  /** The list of ids of the messages already printed: the `Vec<String>`
      the caller owns and lends mutably to every call. */
  class SeenIds {
    var ids: seq<Id>

    /** `Vec::new()`. */
    constructor ()
      ensures ids == []
    {
      ids := [];
    }
  }

  /** A walk that panicked at `data[i]` or before is the walk over the
      whole listing: nothing after the panic is visited. */
  lemma {:induction false} WalkStopsAtPanic(seen: seq<Id>, data: seq<ListedMessage>, i: nat)
    requires i <= |data|
    requires WalkMessages(seen, data[i..]).panicked
    ensures WalkMessages(seen, data) == WalkMessages(seen, data[i..])
  {
    if i > 0 {
      assert data[1..][i - 1..] == data[i..];
      WalkStopsAtPanic(seen, data[1..], i - 1);
    }
  }

  /** `print_messages` with the listing `fetched` as its remote answer:
      walks `data.iter().rev()` and leaves the list, the printed lines and
      the status that `WalkMessages` describes. */
  method PrintMessages(fetched: Result<seq<ListedMessage>>, seen: SeenIds)
    returns (lines: seq<Line>, status: PrintStatus)
    modifies seen
    ensures fetched.Err? ==>
      status == FetchFailed(fetched.error) && lines == [] && seen.ids == old(seen.ids)
    ensures fetched.Ok? ==>
      var w := WalkMessages(old(seen.ids), fetched.value);
      seen.ids == w.seen && lines == w.lines
      && (status == Printed <==> !w.panicked)
      && (w.panicked ==> status == IndexOutOfBounds(w.seen[|w.seen| - 1]))
    ensures seen.ids == old(seen.ids) + LineIds(lines)
                        + if status.IndexOutOfBounds? then [status.id] else []
    ensures NoDup(old(seen.ids)) ==> NoDup(seen.ids)
  {
    if fetched.Err? {
      return [], FetchFailed(fetched.error);
    }
    var data := fetched.value;
    ghost var start := seen.ids;
    lines := [];
    var i := |data|;
    while i > 0
      invariant 0 <= i <= |data|
      invariant WalkMessages(start, data[i..]) == Walk(seen.ids, lines, false)
    {
      i := i - 1;
      var m := data[i];
      assert data[i..][1..] == data[i + 1..];
      if m.id in seen.ids {
        continue;
      }
      seen.ids := seen.ids + [m.id];
      if m.content == [] {
        WalkStopsAtPanic(start, data, i);
        WalkSplits(start, data);
        WalkKeepsNoDup(start, data);
        return lines, IndexOutOfBounds(m.id);
      }
      lines := lines + [LineOf(m)];
    }
    status := Printed;
    WalkSplits(start, data);
    WalkKeepsNoDup(start, data);
  }

  /** Two prints over one list of printed ids, as in a round of the
      conversation: "m1" was printed earlier, the first listing adds the
      user's "m2" and the second the assistant's "m3".  Each print shows
      only the new message, and "m1" is never shown again. */
  method SeenMessageSuppressed() returns (first: seq<Line>, second: seq<Line>, ids: seq<Id>)
    ensures first == [Line("m2", "user", "Hello")]
    ensures second == [Line("m3", "assistant", "Hi")]
    ensures ids == ["m1", "m2", "m3"]
  {
    var m1 := ListedMessage("m1", "assistant", [Content("text", Text("Welcome"))]);
    var m2 := ListedMessage("m2", "user", [Content("text", Text("Hello"))]);
    var m3 := ListedMessage("m3", "assistant", [Content("text", Text("Hi"))]);
    var seen := new SeenIds();
    seen.ids := ["m1"];
    var status;
    assert [m2, m1][1..] == [m1] && [m3, m2, m1][1..] == [m2, m1];
    assert WalkMessages(["m1"], [m1]) == Walk(["m1"], [], false);
    assert WalkMessages(["m1"], [m2, m1]) == Walk(["m1", "m2"], [LineOf(m2)], false);
    first, status := PrintMessages(Ok([m2, m1]), seen);
    assert WalkMessages(["m1", "m2"], [m1]) == Walk(["m1", "m2"], [], false);
    assert WalkMessages(["m1", "m2"], [m2, m1]) == Walk(["m1", "m2"], [], false);
    assert WalkMessages(["m1", "m2"], [m3, m2, m1]) == Walk(["m1", "m2", "m3"], [LineOf(m3)], false);
    second, status := PrintMessages(Ok([m3, m2, m1]), seen);
    ids := seen.ids;
  }
}
