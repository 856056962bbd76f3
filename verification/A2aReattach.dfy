/** Attaching to a run's events while they are being produced. The opening snapshot is read
    from the stored events, the first `n` of them; the stream is the run's one queue, drained
    from its first unread item, the `m`th event. Nothing ties `m` to `n`. */
module A2aReattach {
  import opened Vocabulary
  import opened A2a

  /** The snapshot, then an update for every event still in the queue. */
  method Reattach(events: seq<(Event, bool)>, n: nat, m: nat) returns (opening: seq<Artifact>, updates: seq<Update>)
    requires n <= |events| && m <= |events|
    ensures opening == Artifacts(EventsOf(events[..n]))
    ensures ReceiveAll(opening, updates) == Some(Artifacts(EventsOf(events[..n]) + EventsOf(events[m..])))
  {
    hide ReceiveAll, Artifacts, Updates;
    var stored: seq<Event> := [];
    var i := 0;
    while i < n
      invariant i <= n && stored == EventsOf(events[..i])
    {
      stored := stored + [events[i].0];
      i := i + 1;
    }
    var overflow;
    opening, overflow := BuildTask(stored);
    updates := Stream(opening, events[m..]);
    SnapshotPlusIncrements(stored, events[m..]);
  }

  // ---- events, one after another ---------------------------------------------------------------

  lemma {:induction false} TextAppend(a: seq<Event>, b: seq<Event>, id: string)
    ensures TextUnder(a + b, id) == TextUnder(a, id) + TextUnder(b, id)
  {
    if b == [] {
      assert a + b == a;
    } else {
      var n := |b| - 1;
      TextAppend(a, b[..n], id);
      assert (a + b)[..|a + b| - 1] == a + b[..n] && (a + b)[|a + b| - 1] == b[n];
    }
  }

  /** The ids open after `events`, when `ids` were open before. */
  function OpenAfter(ids: seq<string>, events: seq<Event>): seq<string> {
    if events == [] then ids
    else
      var n := |events| - 1;
      var before := OpenAfter(ids, events[..n]);
      match TextDeltaOf(events[n])
      case Some(delta) => if delta.id in before then before else before + [delta.id]
      case None => before
  }

  lemma {:induction false} IdsAppend(a: seq<Event>, b: seq<Event>)
    ensures ArtifactIds(a + b) == OpenAfter(ArtifactIds(a), b)
  {
    if b == [] {
      assert a + b == a;
    } else {
      var n := |b| - 1;
      IdsAppend(a, b[..n]);
      assert (a + b)[..|a + b| - 1] == a + b[..n] && (a + b)[|a + b| - 1] == b[n];
    }
  }

  lemma {:induction false} OpenGrows(ids: seq<string>, events: seq<Event>)
    ensures ids <= OpenAfter(ids, events)
  {
    if events != [] { OpenGrows(ids, events[..|events| - 1]); }
  }

  /** Every id of `events` is open after them, wherever they began. */
  lemma {:induction false} OpensOwn(ids: seq<string>, events: seq<Event>, id: string)
    requires id in ArtifactIds(events)
    ensures id in OpenAfter(ids, events)
  {
    if events != [] && id in ArtifactIds(events[..|events| - 1]) { OpensOwn(ids, events[..|events| - 1], id); }
  }

  ghost predicate AllOpen(ids: seq<string>, events: seq<Event>) {
    forall id :: id in ArtifactIds(events) ==> id in ids
  }

  lemma {:induction false} NothingOpened(ids: seq<string>, events: seq<Event>)
    requires AllOpen(ids, events)
    ensures OpenAfter(ids, events) == ids
  {
    if events != [] {
      var n := |events| - 1;
      assert AllOpen(ids, events[..n]);
      NothingOpened(ids, events[..n]);
      if TextDeltaOf(events[n]).Some? { assert TextDeltaOf(events[n]).value.id in ArtifactIds(events); }
    }
  }

  /** Events that add no text to anything. */
  predicate Silent(events: seq<Event>) {
    forall i :: 0 <= i < |events| && TextDeltaOf(events[i]).Some? ==> TextDeltaOf(events[i]).value.text == ""
  }

  lemma {:induction false} SilentIsEmpty(events: seq<Event>, id: string)
    requires Silent(events)
    ensures TextUnder(events, id) == ""
  {
    if events != [] {
      var n := |events| - 1;
      assert Silent(events[..n]);
      SilentIsEmpty(events[..n], id);
    }
  }

  lemma {:induction false} LoudIsNot(events: seq<Event>) returns (id: string)
    requires !Silent(events)
    ensures TextUnder(events, id) != "" && id in ArtifactIds(events)
  {
    var n := |events| - 1;
    if Silent(events[..n]) {
      assert forall i :: 0 <= i < n ==> events[..n][i] == events[i];
      assert TextDeltaOf(events[n]).Some? && TextDeltaOf(events[n]).value.text != "";
      id := TextDeltaOf(events[n]).value.id;
      SilentIsEmpty(events[..n], id);
    } else {
      id := LoudIsNot(events[..n]);
    }
  }

  // ---- when two readings give the same artifacts --------------------------------------------------

  lemma SameArtifacts(a: seq<Event>, b: seq<Event>)
    ensures Artifacts(a) == Artifacts(b) <==>
              && ArtifactIds(a) == ArtifactIds(b)
              && forall i :: 0 <= i < |ArtifactIds(a)| ==>
                   TextUnder(a, ArtifactIds(a)[i]) == TextUnder(b, ArtifactIds(a)[i])
  {
    var x, y := ArtifactIds(a), ArtifactIds(b);
    if Artifacts(a) == Artifacts(b) {
      assert |x| == |Artifacts(a)| && |y| == |Artifacts(b)|;
      assert forall i :: 0 <= i < |x| ==> x[i] == Artifacts(a)[i].id && y[i] == Artifacts(b)[i].id;
      assert forall i :: 0 <= i < |x| ==> TextUnder(a, x[i]) == Artifacts(a)[i].text;
      assert forall i :: 0 <= i < |x| ==> TextUnder(b, y[i]) == Artifacts(b)[i].text;
    }
  }

  /** Telling `part` once more, right after itself, shows exactly if it has text. */
  lemma TwiceExactlyWhenSilent(before: seq<Event>, part: seq<Event>, after: seq<Event>)
    ensures Artifacts((before + part) + (part + after)) == Artifacts(before + part + after) <==> Silent(part)
  {
    hide Artifacts, ArtifactIds, TextUnder;
    var once, twice := before + part + after, (before + part) + (part + after);
    SameArtifacts(twice, once);
    TwiceSameIds(before, part, after);
    forall id
      ensures TextUnder(once, id) == TextUnder(before + part, id) + TextUnder(after, id)
      ensures TextUnder(twice, id) == TextUnder(before + part, id) + (TextUnder(part, id) + TextUnder(after, id))
    {
      TextAppend(before + part, after, id);
      TextAppend(part, after, id);
      TextAppend(before + part, part + after, id);
    }
    if Silent(part) {
      forall id ensures TextUnder(twice, id) == TextUnder(once, id) {
        SilentIsEmpty(part, id);
        assert "" + TextUnder(after, id) == TextUnder(after, id);
      }
    } else {
      var id := LoudIsNot(part);
      IdShows(before, part, after, id);
      assert |TextUnder(twice, id)| == |TextUnder(once, id)| + |TextUnder(part, id)|;
    }
  }

  lemma TwiceSameIds(before: seq<Event>, part: seq<Event>, after: seq<Event>)
    ensures ArtifactIds((before + part) + (part + after)) == ArtifactIds(before + part + after)
  {
    hide ArtifactIds, OpenAfter;
    var ids := ArtifactIds(before + part);
    assert (before + part) + (part + after) == (before + part + part) + after;
    IdsAppend(before, part);
    IdsAppend(before + part, part);
    IdsAppend(before + part, after);
    IdsAppend(before + part + part, after);
    forall id | id in ArtifactIds(part) ensures id in ids { OpensOwn(ArtifactIds(before), part, id); }
    NothingOpened(ids, part);
  }

  lemma IdShows(before: seq<Event>, part: seq<Event>, after: seq<Event>, id: string)
    requires id in ArtifactIds(part)
    ensures id in ArtifactIds(before + part + after)
  {
    hide ArtifactIds, OpenAfter;
    IdsAppend(before, part);
    IdsAppend(before + part, after);
    OpensOwn(ArtifactIds(before), part, id);
    OpenGrows(ArtifactIds(before + part), after);
  }

  /** Ids opened from a shorter start catch up with a longer one, if they open the same first. */
  lemma {:induction false} CatchUp(short: seq<string>, long: seq<string>, events: seq<Event>, all: seq<string>)
    requires short <= long <= all && OpenAfter(short, events) <= all
    ensures var a := OpenAfter(short, events);
            OpenAfter(long, events) == if |a| <= |long| then long else a
  {
    if events != [] {
      var n := |events| - 1;
      var a, a' := OpenAfter(short, events[..n]), OpenAfter(short, events);
      assert a <= a';
      CatchUp(short, long, events[..n], all);
      if |a'| <= |long| {
        assert a' <= long;
        if TextDeltaOf(events[n]).Some? {
          var id := TextDeltaOf(events[n]).value.id;
          assert id in a' && a' == long[..|a'|];
        }
      } else if |a| <= |long| {
        assert a == long;
      }
    }
  }

  /** Leaving `part` out shows exactly unless it has no text and what it opens is opened
      next, in the same order, by what follows. */
  lemma MissingExactlyWhenUnseen(before: seq<Event>, part: seq<Event>, after: seq<Event>)
    ensures Artifacts(before + after) == Artifacts(before + part + after) <==>
              Silent(part) && ArtifactIds(before + part) <= ArtifactIds(before + after)
  {
    hide Artifacts, ArtifactIds, TextUnder, OpenAfter;
    var less, all := before + after, before + part + after;
    SameArtifacts(less, all);
    IdsAppend(before, part);
    IdsAppend(before, after);
    IdsAppend(before + part, after);
    OpenGrows(ArtifactIds(before), part);
    OpenGrows(ArtifactIds(before + part), after);
    forall id
      ensures TextUnder(less, id) == TextUnder(before, id) + TextUnder(after, id)
      ensures TextUnder(all, id) == TextUnder(before, id) + TextUnder(part, id) + TextUnder(after, id)
    {
      TextAppend(before, after, id);
      TextAppend(before, part, id);
      TextAppend(before + part, after, id);
    }
    if Silent(part) {
      forall id ensures TextUnder(less, id) == TextUnder(all, id) {
        SilentIsEmpty(part, id);
        assert TextUnder(before, id) + "" == TextUnder(before, id);
      }
      if ArtifactIds(before + part) <= ArtifactIds(less) {
        CatchUp(ArtifactIds(before), ArtifactIds(before + part), after, ArtifactIds(less));
      }
    } else {
      var id := LoudIsNot(part);
      IdShows(before, part, after, id);
      assert |TextUnder(all, id)| == |TextUnder(less, id)| + |TextUnder(part, id)|;
    }
  }

  // ---- attaching late, attaching early ----------------------------------------------------------------

  /** Exactly when attaching works. A queue that still holds events of the snapshot tells
      them twice: it shows unless they have no text. A queue drained past the snapshot by an
      earlier stream leaves events out: it shows unless they have no text and open nothing
      that is not opened next anyway. */
  predicate Agrees(events: seq<Event>, n: nat, m: nat)
    requires n <= |events| && m <= |events|
  {
    if m <= n then Silent(events[m..n])
    else Silent(events[n..m]) && ArtifactIds(events[..m]) <= ArtifactIds(events[..n] + events[m..])
  }

  lemma ReattachedExactlyWhen(events: seq<(Event, bool)>, n: nat, m: nat)
    requires n <= |events| && m <= |events|
    ensures var all, opening := EventsOf(events), Artifacts(EventsOf(events[..n]));
            ReceiveAll(opening, Updates(events[m..], IdsOf(opening))) == Some(Artifacts(all)) <==> Agrees(all, n, m)
  {
    hide Artifacts, ReceiveAll, Updates, ArtifactIds, Silent;
    var all := EventsOf(events);
    SnapshotPlusIncrements(EventsOf(events[..n]), events[m..]);
    assert EventsOf(events[..n]) == all[..n] && EventsOf(events[m..]) == all[m..];
    if m <= n {
      TwiceExactlyWhenSilent(all[..m], all[m..n], all[n..]);
      assert all[..m] + all[m..n] == all[..n] && all[m..n] + all[n..] == all[m..] && all[..n] + all[n..] == all;
    } else {
      MissingExactlyWhenUnseen(all[..n], all[n..m], all[m..]);
      assert all[..n] + all[n..m] == all[..m] && all[..m] + all[m..] == all;
    }
  }

  /** Text produced before anyone subscribed comes twice: once in the snapshot, once from
      the queue. */
  lemma TextCanComeTwice()
    ensures var hi := Event(Known(TextContent), true, "a", "hi", "", "", NoCode);
            var opening := Artifacts([hi]);
            && opening == [Artifact("a", "hi")]
            && ReceiveAll(opening, Updates([(hi, false)], IdsOf(opening))) == Some([Artifact("a", "hihi")])
  {
    var hi := Event(Known(TextContent), true, "a", "hi", "", "", NoCode);
    assert [hi][..0] == [] && [hi, hi][..1] == [hi] && EventsOf([(hi, false)]) == [hi];
    assert [hi] + [hi] == [hi, hi];
    assert ArtifactIds([hi]) == ["a"] && ArtifactIds([hi, hi]) == ["a"];
    assert TextUnder([], "a") == "" && TextUnder([hi], "a") == "hi" && TextUnder([hi, hi], "a") == "hihi";
    assert Artifacts([hi, hi]) == [Artifact("a", "hihi")];
    SnapshotPlusIncrements([hi], [(hi, false)]);
  }
}
