/** The two readings of a run's events that A2A callers get: an A2A task as a snapshot, and
    the stream of increments after one. */
module A2a {
  import opened Vocabulary

  datatype Artifact = Artifact(id: string, text: string)

  datatype TaskState = Working | InputRequired | Completed | Failed

  /** What one event becomes on the stream. A status update carries the event itself when
      A2A has no words for it. */
  datatype Update =
    | Status(state: TaskState, carried: Option<Event>)
    | Increment(id: string, text: string, append: bool)

  datatype Delta = Delta(id: string, text: string)

  // ---- one event --------------------------------------------------------------------------

  predicate IsText(e: Event) {
    HasType(e, TextContent) || HasType(e, TextChunk)
  }

  predicate IsMapped(e: Event) {
    IsText(e) || HasType(e, RunStarted) || HasType(e, RunFinished) || HasType(e, RunError)
  }

  function TextDeltaOf(e: Event): Option<Delta> {
    if !IsText(e) then None
    else Some(Delta(if e.messageId != "" then e.messageId else "text", if e.delta != "" then e.delta else e.content))
  }

  /** `asks` says whether a finished run ended on an interrupt. */
  function UpdateOf(e: Event, asks: bool, openIds: set<string>): Update {
    if HasType(e, RunStarted) then Status(Working, None)
    else if HasType(e, RunFinished) then Status(if asks then InputRequired else Completed, None)
    else if HasType(e, RunError) then Status(Failed, None)
    else
      match TextDeltaOf(e)
      case Some(delta) => Increment(delta.id, delta.text, delta.id in openIds)
      case None => Status(Working, Some(e))
  }

  function OpenedBy(e: Event, openIds: set<string>): set<string> {
    match TextDeltaOf(e)
    case Some(delta) => openIds + {delta.id}
    case None => openIds
  }

  function Updates(events: seq<(Event, bool)>, openIds: set<string>): seq<Update>
    decreases |events|
  {
    if events == [] then []
    else [UpdateOf(events[0].0, events[0].1, openIds)] + Updates(events[1..], OpenedBy(events[0].0, openIds))
  }

  // ---- the snapshot -----------------------------------------------------------------------

  /** The message ids with text, in the order they first appear. */
  function ArtifactIds(events: seq<Event>): seq<string> {
    if events == [] then []
    else
      var n := |events| - 1;
      var ids := ArtifactIds(events[..n]);
      match TextDeltaOf(events[n])
      case Some(delta) => if delta.id in ids then ids else ids + [delta.id]
      case None => ids
  }

  /** Everything said under one message id, in order. */
  function TextUnder(events: seq<Event>, id: string): string {
    if events == [] then ""
    else
      var n := |events| - 1;
      TextUnder(events[..n], id)
      + (match TextDeltaOf(events[n]) case Some(delta) => (if delta.id == id then delta.text else "") case None => "")
  }

  function Artifacts(events: seq<Event>): seq<Artifact> {
    var ids := ArtifactIds(events);
    seq(|ids|, i requires 0 <= i < |ids| => Artifact(ids[i], TextUnder(events, ids[i])))
  }

  /** What A2A has no words for, in order. */
  function Overflow(events: seq<Event>): seq<Event> {
    if events == [] then []
    else
      var n := |events| - 1;
      Overflow(events[..n]) + if IsMapped(events[n]) then [] else [events[n]]
  }

  function Join(chunks: seq<string>): string {
    if chunks == [] then "" else Join(chunks[..|chunks| - 1]) + chunks[|chunks| - 1]
  }

  lemma {:induction false} IdsAreDistinct(events: seq<Event>)
    ensures Distinct(ArtifactIds(events))
  {
    if events != [] { IdsAreDistinct(events[..|events| - 1]); }
  }

  /** The chunks said so far under each id, the ids in the order a dict keeps them. */
  ghost predicate Merges(order: seq<string>, merged: map<string, seq<string>>, events: seq<Event>) {
    && order == ArtifactIds(events)
    && (forall id :: id in merged <==> id in order)
    && (forall id :: id in merged ==> Join(merged[id]) == TextUnder(events, id))
  }

  lemma JoinOneMore(chunks: seq<string>, text: string)
    ensures Join(chunks + [text]) == Join(chunks) + text
  {
    assert (chunks + [text])[..|chunks|] == chunks;
  }

  lemma {:induction false} UnopenedIsEmpty(events: seq<Event>, id: string)
    requires id !in ArtifactIds(events)
    ensures TextUnder(events, id) == ""
  {
    if events != [] { UnopenedIsEmpty(events[..|events| - 1], id); }
  }

  lemma TextGrows(events: seq<Event>, e: Event, delta: Delta, id: string)
    requires TextDeltaOf(e) == Some(delta)
    ensures TextUnder(events + [e], id) == TextUnder(events, id) + if id == delta.id then delta.text else ""
  {
    assert (events + [e])[..|events|] == events;
  }

  lemma IdsGrow(events: seq<Event>, e: Event, delta: Delta)
    requires TextDeltaOf(e) == Some(delta)
    ensures var ids := ArtifactIds(events);
            ArtifactIds(events + [e]) == if delta.id in ids then ids else ids + [delta.id]
  {
    assert (events + [e])[..|events|] == events;
  }

  method MergeText(order: seq<string>, merged: map<string, seq<string>>, delta: Delta, ghost events: seq<Event>,
                   ghost e: Event)
    returns (order': seq<string>, merged': map<string, seq<string>>)
    requires Merges(order, merged, events) && TextDeltaOf(e) == Some(delta)
    ensures Merges(order', merged', events + [e])
  {
    hide ArtifactIds, TextUnder, Join, TextDeltaOf;
    order', merged' := order, merged;
    IdsGrow(events, e, delta);
    if delta.id !in merged {
      UnopenedIsEmpty(events, delta.id);
      JoinNone();
      order', merged' := order + [delta.id], merged[delta.id := []];
    }
    JoinOneMore(merged'[delta.id], delta.text);
    merged' := merged'[delta.id := merged'[delta.id] + [delta.text]];
    forall id | id in merged' ensures Join(merged'[id]) == TextUnder(events + [e], id) {
      TextGrows(events, e, delta, id);
      assert TextUnder(events, id) + "" == TextUnder(events, id);
    }
  }

  lemma JoinNone()
    ensures Join([]) == ""
  {
  }

  lemma NoText(order: seq<string>, merged: map<string, seq<string>>, events: seq<Event>, e: Event)
    requires Merges(order, merged, events) && TextDeltaOf(e).None?
    ensures Merges(order, merged, events + [e])
  {
    assert (events + [e])[..|events|] == events;
    assert forall id :: TextUnder(events, id) + "" == TextUnder(events, id);
  }

  lemma OverflowStep(events: seq<Event>, e: Event)
    ensures Overflow(events + [e]) == Overflow(events) + if IsMapped(e) then [] else [e]
  {
    assert (events + [e])[..|events|] == events;
  }

  method Render(order: seq<string>, merged: map<string, seq<string>>, ghost events: seq<Event>)
      returns (artifacts: seq<Artifact>)
    requires Merges(order, merged, events)
    ensures artifacts == Artifacts(events)
  {
    artifacts := [];
    var i := 0;
    while i < |order|
      invariant i <= |order| && |artifacts| == i
      invariant forall j :: 0 <= j < i ==> artifacts[j] == Artifact(order[j], TextUnder(events, order[j]))
    {
      artifacts := artifacts + [Artifact(order[i], Join(merged[order[i]]))];
      i := i + 1;
    }
  }

  /** Merges the text of each message into one artifact, and keeps the rest aside. */
  method BuildTask(events: seq<Event>) returns (artifacts: seq<Artifact>, overflow: seq<Event>)
    ensures artifacts == Artifacts(events) && overflow == Overflow(events)
  {
    var order: seq<string> := [];
    var merged: map<string, seq<string>> := map[];
    overflow := [];
    var i := 0;
    assert Merges(order, merged, []);
    while i < |events|
      invariant i <= |events|
      invariant Merges(order, merged, events[..i]) && overflow == Overflow(events[..i])
    {
      hide Merges, Overflow;
      var e := events[i];
      assert events[..i + 1] == events[..i] + [e];
      OverflowStep(events[..i], e);
      var delta := TextDeltaOf(e);
      if delta.Some? {
        order, merged := MergeText(order, merged, delta.value, events[..i], e);
      } else {
        NoText(order, merged, events[..i], e);
        if !IsMapped(e) { overflow := overflow + [e]; }
      }
      i := i + 1;
    }
    assert events[..i] == events;
    artifacts := Render(order, merged, events);
  }

  // ---- the stream -----------------------------------------------------------------------------

  /** A stream of increments after an opening snapshot. */
  class UpdateStream {
    var openIds: set<string>

    constructor (opening: seq<Artifact>)
      ensures openIds == IdsOf(opening)
    {
      openIds := IdsOf(opening);
    }

    method Translate(e: Event, asks: bool) returns (update: Update)
      modifies this
      ensures update == UpdateOf(e, asks, old(openIds)) && openIds == OpenedBy(e, old(openIds))
    {
      if HasType(e, RunStarted) { return Status(Working, None); }
      if HasType(e, RunFinished) { return Status(if asks then InputRequired else Completed, None); }
      if HasType(e, RunError) { return Status(Failed, None); }
      var delta := TextDeltaOf(e);
      if delta.Some? {
        var alreadyOpen := delta.value.id in openIds;
        openIds := openIds + {delta.value.id};
        return Increment(delta.value.id, delta.value.text, alreadyOpen);
      }
      return Status(Working, Some(e));
    }
  }

  function IdsOf(artifacts: seq<Artifact>): set<string> {
    set i | 0 <= i < |artifacts| :: artifacts[i].id
  }

  /** One update for every event of a stream opened on a snapshot. */
  method Stream(opening: seq<Artifact>, events: seq<(Event, bool)>) returns (updates: seq<Update>)
    ensures updates == Updates(events, IdsOf(opening))
  {
    var stream := new UpdateStream(opening);
    updates := [];
    var i := 0;
    while i < |events|
      invariant i <= |events|
      invariant updates + Updates(events[i..], stream.openIds) == Updates(events, IdsOf(opening))
    {
      assert events[i..][1..] == events[i + 1..];
      ghost var before := updates;
      var update := stream.Translate(events[i].0, events[i].1);
      updates := updates + [update];
      ghost var later := Updates(events[i + 1..], stream.openIds);
      assert before + ([update] + later) == updates + later;
      i := i + 1;
    }
    assert events[i..] == [];
  }

  // ---- the receiver ------------------------------------------------------------------------------

  predicate Holds(held: seq<Artifact>, id: string) {
    exists i :: 0 <= i < |held| && held[i].id == id
  }

  function AppendTo(held: seq<Artifact>, id: string, text: string): seq<Artifact> {
    seq(|held|, i requires 0 <= i < |held| =>
      if held[i].id == id then Artifact(id, held[i].text + text) else held[i])
  }

  /** What a receiver makes of an update; an increment it cannot place (appending to what
      it does not hold, opening what it does) is an error. */
  function Receive(held: seq<Artifact>, update: Update): Option<seq<Artifact>> {
    match update
    case Status(_, _) => Some(held)
    case Increment(id, text, append) =>
      if append != Holds(held, id) then None
      else if append then Some(AppendTo(held, id, text))
      else Some(held + [Artifact(id, text)])
  }

  function ReceiveAll(held: seq<Artifact>, updates: seq<Update>): Option<seq<Artifact>>
    decreases |updates|
  {
    if updates == [] then Some(held)
    else
      match Receive(held, updates[0])
      case None => None
      case Some(more) => ReceiveAll(more, updates[1..])
  }

  function Carried(updates: seq<Update>): seq<Event> {
    if updates == [] then []
    else
      (if updates[0].Status? && updates[0].carried.Some? then [updates[0].carried.value] else [])
      + Carried(updates[1..])
  }

  function EventsOf(events: seq<(Event, bool)>): seq<Event> {
    seq(|events|, i requires 0 <= i < |events| => events[i].0)
  }

  // ---- the two readings agree -----------------------------------------------------------------------

  lemma HoldsIsOpened(events: seq<Event>, id: string)
    ensures Holds(Artifacts(events), id) <==> id in ArtifactIds(events)
    ensures id in IdsOf(Artifacts(events)) <==> id in ArtifactIds(events)
  {
    var ids := ArtifactIds(events);
    if id in ids {
      var i :| 0 <= i < |ids| && ids[i] == id;
      assert Artifacts(events)[i].id == id;
    }
  }

  lemma OneMoreDelta(events: seq<Event>, e: Event)
    requires TextDeltaOf(e).Some?
    ensures var delta, ids := TextDeltaOf(e).value, ArtifactIds(events);
            && ArtifactIds(events + [e]) == (if delta.id in ids then ids else ids + [delta.id])
            && forall id ::
                 TextUnder(events + [e], id) == TextUnder(events, id) + if id == delta.id then delta.text else ""
  {
    IdsGrow(events, e, TextDeltaOf(e).value);
    forall id ensures TextUnder(events + [e], id)
                      == TextUnder(events, id) + if id == TextDeltaOf(e).value.id then TextDeltaOf(e).value.text else ""
    {
      TextGrows(events, e, TextDeltaOf(e).value, id);
    }
  }

  /** One increment takes a receiver that holds the snapshot to the next snapshot. */
  lemma OneMoreEvent(events: seq<Event>, e: Event, asks: bool)
    ensures var update := UpdateOf(e, asks, IdsOf(Artifacts(events)));
            && Receive(Artifacts(events), update) == Some(Artifacts(events + [e]))
            && Overflow(events) + Carried([update]) == Overflow(events + [e])
    ensures OpenedBy(e, IdsOf(Artifacts(events))) == IdsOf(Artifacts(events + [e]))
  {
    var update := UpdateOf(e, asks, IdsOf(Artifacts(events)));
    assert [update][1..] == [];
    assert (events + [e])[..|events|] == events;
    match TextDeltaOf(e)
    case None =>
      assert forall id :: TextUnder(events, id) + "" == TextUnder(events, id);
      assert Artifacts(events + [e]) == Artifacts(events);
    case Some(delta) =>
      TextEvent(events, e, delta);
  }

  lemma TextEvent(events: seq<Event>, e: Event, delta: Delta)
    requires TextDeltaOf(e) == Some(delta)
    ensures Receive(Artifacts(events), Increment(delta.id, delta.text, delta.id in IdsOf(Artifacts(events))))
            == Some(Artifacts(events + [e]))
    ensures IdsOf(Artifacts(events)) + {delta.id} == IdsOf(Artifacts(events + [e]))
  {
    HoldsIsOpened(events, delta.id);
    OneMoreDelta(events, e);
    var held, next := Artifacts(events), Artifacts(events + [e]);
    var ids := ArtifactIds(events);
    if delta.id in ids {
      assert AppendTo(held, delta.id, delta.text) == next by {
        forall i | 0 <= i < |held| ensures AppendTo(held, delta.id, delta.text)[i] == next[i] {
          assert TextUnder(events, ids[i]) + "" == TextUnder(events, ids[i]);
        }
      }
    } else {
      UnopenedIsEmpty(events, delta.id);
      forall i | 0 <= i < |held| ensures held[i] == next[i] {
        assert TextUnder(events, ids[i]) + "" == TextUnder(events, ids[i]);
      }
      assert next[|held|] == Artifact(delta.id, delta.text);
      assert held + [Artifact(delta.id, delta.text)] == next;
    }
    forall id ensures id in IdsOf(held) + {delta.id} <==> id in IdsOf(next) {
      HoldsIsOpened(events, id);
      HoldsIsOpened(events + [e], id);
    }
  }

  /** For every split of a run's events: a receiver that starts from the snapshot of the
      first part and applies the increments of the rest can place every one of them, and
      ends with the snapshot of the whole: the same artifacts, in the same order, with the
      same text. */
  lemma {:induction false} SnapshotPlusIncrements(first: seq<Event>, rest: seq<(Event, bool)>)
    ensures ReceiveAll(Artifacts(first), Updates(rest, IdsOf(Artifacts(first))))
            == Some(Artifacts(first + EventsOf(rest)))
    decreases |rest|
  {
    hide Artifacts, Receive, UpdateOf, OpenedBy, IdsOf, Overflow;
    if rest == [] {
      assert first + EventsOf(rest) == first;
    } else {
      var e, asks := rest[0].0, rest[0].1;
      OneMoreEvent(first, e, asks);
      SnapshotPlusIncrements(first + [e], rest[1..]);
      assert first + EventsOf(rest) == (first + [e]) + EventsOf(rest[1..]);
      UpdatesHead(rest, IdsOf(Artifacts(first)));
    }
  }

  /** And what A2A has no words for adds up too: nothing is dropped and nothing is told twice. */
  lemma {:induction false} OverflowPlusCarried(first: seq<Event>, rest: seq<(Event, bool)>)
    ensures Overflow(first) + Carried(Updates(rest, IdsOf(Artifacts(first)))) == Overflow(first + EventsOf(rest))
    decreases |rest|
  {
    hide Artifacts, Receive, UpdateOf, OpenedBy, IdsOf, Overflow;
    if rest == [] {
      assert first + EventsOf(rest) == first;
    } else {
      var e, asks := rest[0].0, rest[0].1;
      var ids := IdsOf(Artifacts(first));
      OneMoreEvent(first, e, asks);
      OverflowPlusCarried(first + [e], rest[1..]);
      assert first + EventsOf(rest) == (first + [e]) + EventsOf(rest[1..]);
      UpdatesHead(rest, ids);
      var later := Updates(rest[1..], OpenedBy(e, ids));
      CarriedHead(UpdateOf(e, asks, ids), later);
      assert Overflow(first) + (Carried([UpdateOf(e, asks, ids)]) + Carried(later))
             == (Overflow(first) + Carried([UpdateOf(e, asks, ids)])) + Carried(later);
    }
  }

  lemma UpdatesHead(events: seq<(Event, bool)>, ids: set<string>)
    requires events != []
    ensures var updates := Updates(events, ids);
            && updates != [] && updates[0] == UpdateOf(events[0].0, events[0].1, ids)
            && updates[1..] == Updates(events[1..], OpenedBy(events[0].0, ids))
            && updates == [updates[0]] + updates[1..]
  {
  }

  lemma CarriedHead(update: Update, later: seq<Update>)
    ensures Carried([update] + later) == Carried([update]) + Carried(later)
  {
    assert [update][1..] == [] && ([update] + later)[1..] == later;
  }

  /** `append` is set on an increment exactly when the receiver already holds the artifact. */
  lemma AppendExactlyWhenHeld(first: seq<Event>, rest: seq<(Event, bool)>, i: nat)
    requires i < |Updates(rest, IdsOf(Artifacts(first)))| && Updates(rest, IdsOf(Artifacts(first)))[i].Increment?
    ensures var updates := Updates(rest, IdsOf(Artifacts(first)));
            var held := ReceiveAll(Artifacts(first), updates[..i]);
            held.Some? && (updates[i].append <==> Holds(held.value, updates[i].id))
  {
    var updates := Updates(rest, IdsOf(Artifacts(first)));
    SnapshotPlusIncrements(first, rest);
    assert updates == updates[..i] + updates[i..];
    ReceiveSplit(Artifacts(first), updates[..i], updates[i..]);
  }

  lemma {:induction false} ReceiveSplit(held: seq<Artifact>, a: seq<Update>, b: seq<Update>)
    ensures ReceiveAll(held, a + b)
            == (match ReceiveAll(held, a) case None => None case Some(more) => ReceiveAll(more, b))
    decreases |a|
  {
    if a == [] {
      assert a + b == b;
    } else {
      assert (a + b)[0] == a[0] && (a + b)[1..] == a[1..] + b;
      if Receive(held, a[0]).Some? { ReceiveSplit(Receive(held, a[0]).value, a[1..], b); }
    }
  }
}
