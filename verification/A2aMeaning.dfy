/** What each AG-UI event means to an A2A caller, event by event: which are text and under
    which id, which move the status, and which are carried as they are. */
module A2aMeaning {
  import opened Vocabulary
  import opened A2a
  import opened A2aReattach

  predicate SaysText(e: Event) {
    e.tag == Known(TextContent) || e.tag == Known(TextChunk)
  }

  predicate MovesStatus(e: Event) {
    e.tag == Known(RunStarted) || e.tag == Known(RunFinished) || e.tag == Known(RunError)
  }

  /** The message a text event belongs to; one that names none belongs to `text`. */
  function IdOf(e: Event): string {
    if e.messageId == "" then "text" else e.messageId
  }

  function TextOf(e: Event): string {
    if e.delta == "" then e.content else e.delta
  }

  lemma {:induction false} OverflowAppend(a: seq<Event>, b: seq<Event>)
    ensures Overflow(a + b) == Overflow(a) + Overflow(b)
  {
    if b == [] {
      assert a + b == a;
    } else {
      var n := |b| - 1;
      OverflowAppend(a, b[..n]);
      assert (a + b)[..|a + b| - 1] == a + b[..n] && (a + b)[|a + b| - 1] == b[n];
    }
  }

  /** In the snapshot, an event adds its text to its message and to no other if it is text,
      is kept aside if it neither is text nor moves the status, and does nothing else. */
  lemma EventInSnapshot(events: seq<Event>, i: nat, id: string)
    requires i < |events|
    ensures var e := events[i];
            && TextUnder(events, id) == TextUnder(events[..i], id)
                                        + (if SaysText(e) && IdOf(e) == id then TextOf(e) else "")
                                        + TextUnder(events[i + 1..], id)
            && Overflow(events) == Overflow(events[..i]) + (if SaysText(e) || MovesStatus(e) then [] else [e])
                                   + Overflow(events[i + 1..])
  {
    hide TextUnder, Overflow;
    var e, before, after := events[i], events[..i], events[i + 1..];
    assert events == before + ([e] + after);
    OneEvent(e, id);
    TextAppend(before, [e] + after, id);
    TextAppend([e], after, id);
    Regroup(TextUnder(before, id), TextUnder([e], id), TextUnder(after, id));
    OverflowAppend(before, [e] + after);
    OverflowAppend([e], after);
    Regroup(Overflow(before), Overflow([e]), Overflow(after));
  }

  lemma Regroup<T>(a: seq<T>, b: seq<T>, c: seq<T>)
    ensures a + (b + c) == a + b + c
  {
  }

  lemma OneEvent(e: Event, id: string)
    ensures TextUnder([e], id) == if SaysText(e) && IdOf(e) == id then TextOf(e) else ""
    ensures Overflow([e]) == if SaysText(e) || MovesStatus(e) then [] else [e]
  {
    assert [e][..0] == [];
    assert TextUnder([], id) == "" && Overflow([]) == [];
  }

  /** There is an artifact for an id exactly when some text event belongs to it. */
  lemma {:induction false} ArtifactExactlyWhenTold(events: seq<Event>, id: string)
    ensures id in ArtifactIds(events) <==> exists i :: 0 <= i < |events| && SaysText(events[i]) && IdOf(events[i]) == id
  {
    if events != [] {
      var n := |events| - 1;
      ArtifactExactlyWhenTold(events[..n], id);
      if exists i :: 0 <= i < n && SaysText(events[..n][i]) && IdOf(events[..n][i]) == id {
        var i :| 0 <= i < n && SaysText(events[..n][i]) && IdOf(events[..n][i]) == id;
        assert SaysText(events[i]) && IdOf(events[i]) == id;
      }
      if exists i :: 0 <= i < |events| && SaysText(events[i]) && IdOf(events[i]) == id {
        var i :| 0 <= i < |events| && SaysText(events[i]) && IdOf(events[i]) == id;
        if i < n { assert SaysText(events[..n][i]) && IdOf(events[..n][i]) == id; }
      }
    }
  }

  /** Text of this id was told in the stream before its `i`th event. */
  predicate ToldBefore(events: seq<(Event, bool)>, i: nat, id: string)
    requires i <= |events|
  {
    exists k :: 0 <= k < i && SaysText(events[k].0) && IdOf(events[k].0) == id
  }

  /** In the stream, each event is one update: its status if it moves it; its text, appended
      exactly if the message was open at the start or told since; or itself, carried. */
  predicate EventInStream(update: Update, e: Event, asks: bool, known: bool) {
    if e.tag == Known(RunStarted) then update == Status(Working, None)
    else if e.tag == Known(RunFinished) then update == Status(if asks then InputRequired else Completed, None)
    else if e.tag == Known(RunError) then update == Status(Failed, None)
    else if SaysText(e) then update == Increment(IdOf(e), TextOf(e), known)
    else update == Status(Working, Some(e))
  }

  lemma {:induction false} StreamTellsEachEvent(events: seq<(Event, bool)>, ids: set<string>, i: nat)
    requires i < |events|
    ensures var updates, e := Updates(events, ids), events[i].0;
            && |updates| == |events|
            && EventInStream(updates[i], e, events[i].1, IdOf(e) in ids || ToldBefore(events, i, IdOf(e)))
    decreases |events|
  {
    var e0, rest, ids1 := events[0].0, events[1..], OpenedBy(events[0].0, ids);
    UpdateCount(events, ids);
    if i == 0 {
      assert !ToldBefore(events, 0, IdOf(e0));
    } else {
      var id := IdOf(events[i].0);
      StreamTellsEachEvent(rest, ids1, i - 1);
      assert rest[i - 1] == events[i];
      if ToldBefore(rest, i - 1, id) {
        var k :| 0 <= k < i - 1 && SaysText(rest[k].0) && IdOf(rest[k].0) == id;
        assert events[k + 1] == rest[k];
      }
      if ToldBefore(events, i, id) && !(SaysText(e0) && IdOf(e0) == id) {
        var k :| 0 <= k < i && SaysText(events[k].0) && IdOf(events[k].0) == id;
        assert rest[k - 1] == events[k];
      }
      assert id in ids1 <==> id in ids || (SaysText(e0) && IdOf(e0) == id);
    }
  }

  lemma {:induction false} UpdateCount(events: seq<(Event, bool)>, ids: set<string>)
    ensures |Updates(events, ids)| == |events|
    decreases |events|
  {
    if events != [] { UpdateCount(events[1..], OpenedBy(events[0].0, ids)); }
  }
}
