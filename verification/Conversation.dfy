/** A thread's conversation, rebuilt from what its runs carried in and replied with. */
module Conversation {
  import opened Vocabulary

  /** A message is its id; two copies under one id are the same message. */
  datatype Message = Message(id: string, body: string)

  /** A run's row, the messages it carried in, and what its events amount to. */
  datatype RunRow = RunRow(run: RunId, completed: bool, carried: seq<Message>, replies: seq<Message>)

  datatype Line = Line(source: RunId, message: Message)

  function Said(row: RunRow): seq<Message> {
    row.carried + if row.completed then row.replies else []
  }

  // ---- what the conversation is -------------------------------------------------------------

  /** Everything said, with who said it. */
  function Lines(run: RunId, messages: seq<Message>): seq<Line> {
    seq(|messages|, i requires 0 <= i < |messages| => Line(run, messages[i]))
  }

  function AllLines(rows: seq<RunRow>): seq<Line> {
    if rows == [] then []
    else AllLines(rows[..|rows| - 1]) + Lines(rows[|rows| - 1].run, Said(rows[|rows| - 1]))
  }

  ghost predicate Told(lines: seq<Line>, id: string) {
    exists i :: 0 <= i < |lines| && lines[i].message.id == id
  }

  /** Each line whose message nobody told before. */
  ghost function Firsts(lines: seq<Line>): seq<Line> {
    if lines == [] then []
    else
      var n := |lines| - 1;
      Firsts(lines[..n]) + if Told(lines[..n], lines[n].message.id) then [] else [lines[n]]
  }

  ghost function ConversationOf(rows: seq<RunRow>): seq<Line> {
    Firsts(AllLines(rows))
  }

  function MessagesOf(lines: seq<Line>): seq<Message> {
    seq(|lines|, i requires 0 <= i < |lines| => lines[i].message)
  }

  // ---- the folds that build it ------------------------------------------------------------------

  lemma {:induction false} FirstsTellTheSame(lines: seq<Line>, id: string)
    ensures Told(Firsts(lines), id) <==> Told(lines, id)
  {
    if lines != [] {
      var n := |lines| - 1;
      FirstsTellTheSame(lines[..n], id);
      assert lines == lines[..n] + [lines[n]];
      ToldBoth(lines[..n], [lines[n]], id);
      ToldBoth(Firsts(lines[..n]), if Told(lines[..n], lines[n].message.id) then [] else [lines[n]], id);
      assert Told([lines[n]], id) <==> lines[n].message.id == id by { assert [lines[n]][0] == lines[n]; }
    }
  }

  lemma ToldBoth(a: seq<Line>, b: seq<Line>, id: string)
    ensures Told(a + b, id) <==> Told(a, id) || Told(b, id)
  {
    if Told(a, id) {
      var i :| 0 <= i < |a| && a[i].message.id == id;
      assert (a + b)[i].message.id == id;
    }
    if Told(b, id) {
      var i :| 0 <= i < |b| && b[i].message.id == id;
      assert (a + b)[|a| + i].message.id == id;
    }
  }

  lemma FirstsOneMore(lines: seq<Line>, line: Line)
    ensures Firsts(lines + [line]) == Firsts(lines) + if Told(Firsts(lines), line.message.id) then [] else [line]
  {
    assert (lines + [line])[..|lines|] == lines;
    FirstsTellTheSame(lines, line.message.id);
  }

  /** The inner loop: keeps each message of one run the first time its id is met. */
  method TellRun(run: RunId, said: seq<Message>, seen: set<string>, out: seq<Line>, ghost told: seq<Line>)
    returns (seen': set<string>, out': seq<Line>)
    requires out == Firsts(told) && forall id :: id in seen <==> Told(out, id)
    ensures out' == Firsts(told + Lines(run, said)) && forall id :: id in seen' <==> Told(out', id)
  {
    hide Firsts, Told;
    seen', out' := seen, out;
    ghost var all := told;
    var j := 0;
    assert told + Lines(run, said[..0]) == told;
    while j < |said|
      invariant j <= |said|
      invariant all == told + Lines(run, said[..j]) && out' == Firsts(all)
      invariant forall id :: id in seen' <==> Told(out', id)
    {
      var line := Line(run, said[j]);
      FirstsOneMore(all, line);
      assert Lines(run, said[..j + 1]) == Lines(run, said[..j]) + [line];
      if said[j].id !in seen' {
        ToldOneMore(out', line);
        seen' := seen' + {said[j].id};
        out' := out' + [line];
      } else {
        assert out' + [] == out';
      }
      all := all + [line];
      j := j + 1;
    }
    assert said[..j] == said;
  }

  /** Walks the runs in order, keeping each message the first time its id is met. */
  method BuildConversation(rows: seq<RunRow>) returns (out: seq<Line>)
    ensures out == ConversationOf(rows)
  {
    var seen: set<string> := {};
    out := [];
    var i := 0;
    while i < |rows|
      invariant i <= |rows| && out == Firsts(AllLines(rows[..i]))
      invariant forall id :: id in seen <==> Told(out, id)
    {
      hide Firsts, Told;
      var said := rows[i].carried;
      if rows[i].completed { said := said + rows[i].replies; }
      assert said == Said(rows[i]);
      seen, out := TellRun(rows[i].run, said, seen, out, AllLines(rows[..i]));
      assert rows[..i + 1][..i] == rows[..i];
      i := i + 1;
    }
    assert rows[..i] == rows;
  }

  lemma ToldOneMore(lines: seq<Line>, line: Line)
    ensures forall id :: Told(lines + [line], id) <==> Told(lines, id) || id == line.message.id
  {
    forall id ensures Told(lines + [line], id) <==> Told(lines, id) || id == line.message.id {
      ToldBoth(lines, [line], id);
      assert Told([line], id) <==> id == line.message.id by { assert [line][0] == line; }
    }
  }

  // ---- what it promises ---------------------------------------------------------------------------

  ghost predicate Unique(lines: seq<Line>) {
    forall i, j :: 0 <= i < j < |lines| ==> lines[i].message.id != lines[j].message.id
  }

  /** No id twice. */
  lemma {:induction false} IdsAreDistinct(lines: seq<Line>)
    ensures Unique(Firsts(lines))
  {
    if lines != [] {
      var n := |lines| - 1;
      IdsAreDistinct(lines[..n]);
      FirstsTellTheSame(lines[..n], lines[n].message.id);
      assert lines == lines[..n] + [lines[n]];
      FirstsOneMore(lines[..n], lines[n]);
    }
  }

  /** Each message of the conversation is told under the run that told it first. */
  lemma {:induction false} AttributedToTheFirst(lines: seq<Line>, k: nat) returns (i: nat)
    requires k < |Firsts(lines)|
    ensures i < |lines| && lines[i] == Firsts(lines)[k]
    ensures !Told(lines[..i], Firsts(lines)[k].message.id)
  {
    var n := |lines| - 1;
    if k < |Firsts(lines[..n])| {
      i := AttributedToTheFirst(lines[..n], k);
      assert lines[..n][..i] == lines[..i];
    } else {
      i := n;
    }
  }

  /** What is told after `lines`: each new id once. */
  ghost function NewAfter(lines: seq<Line>, more: seq<Line>): seq<Line> {
    if more == [] then []
    else
      var n := |more| - 1;
      NewAfter(lines, more[..n]) + if Told(lines + more[..n], more[n].message.id) then [] else [more[n]]
  }

  lemma {:induction false} FirstsExtend(a: seq<Line>, b: seq<Line>)
    ensures Firsts(a + b) == Firsts(a) + NewAfter(a, b)
  {
    if b == [] {
      assert a + b == a;
    } else {
      var n := |b| - 1;
      FirstsExtend(a, b[..n]);
      assert (a + b)[..|a + b| - 1] == a + b[..n];
      assert (a + b)[|a + b| - 1] == b[n];
      var last := if Told(a + b[..n], b[n].message.id) then [] else [b[n]];
      assert (Firsts(a) + NewAfter(a, b[..n])) + last == Firsts(a) + (NewAfter(a, b[..n]) + last);
    }
  }

  lemma {:induction false} AllLinesAppend(a: seq<RunRow>, b: seq<RunRow>)
    ensures AllLines(a + b) == AllLines(a) + AllLines(b)
  {
    if b == [] {
      assert a + b == a;
    } else {
      var n := |b| - 1;
      var last := Lines(b[n].run, Said(b[n]));
      calc {
        AllLines(a + b);
        { assert (a + b)[..|a + b| - 1] == a + b[..n] && (a + b)[|a + b| - 1] == b[n]; }
        AllLines(a + b[..n]) + last;
        { AllLinesAppend(a, b[..n]); }
        (AllLines(a) + AllLines(b[..n])) + last;
        AllLines(a) + (AllLines(b[..n]) + last);
        AllLines(a) + AllLines(b);
      }
    }
  }

  /** As runs are appended the conversation only grows at its end. */
  lemma ConversationOnlyExtends(rows: seq<RunRow>, more: seq<RunRow>)
    ensures ConversationOf(rows) <= ConversationOf(rows + more)
    ensures ConversationOf(rows + more) == ConversationOf(rows) + NewAfter(AllLines(rows), AllLines(more))
  {
    AllLinesAppend(rows, more);
    FirstsExtend(AllLines(rows), AllLines(more));
  }

  // ---- repeating what was told adds nothing ---------------------------------------------------------

  ghost predicate AllTold(lines: seq<Line>, more: seq<Line>) {
    forall i :: 0 <= i < |more| ==> Told(lines, more[i].message.id)
  }

  ghost predicate SameTold(a: seq<Line>, b: seq<Line>) {
    forall id :: Told(a, id) <==> Told(b, id)
  }

  lemma {:induction false} RepeatingAddsNothing(lines: seq<Line>, again: seq<Line>)
    requires AllTold(lines, again)
    ensures NewAfter(lines, again) == [] && SameTold(lines + again, lines)
  {
    if again == [] {
      assert lines + again == lines;
    } else {
      var n := |again| - 1;
      RepeatingAddsNothing(lines, again[..n]);
      assert lines + again == (lines + again[..n]) + [again[n]];
      ToldOneMore(lines + again[..n], again[n]);
    }
  }

  /** Only what was told matters to what is new. */
  lemma {:induction false} SameToldSameNew(a: seq<Line>, b: seq<Line>, more: seq<Line>)
    requires SameTold(a, b)
    ensures NewAfter(a, more) == NewAfter(b, more) && SameTold(a + more, b + more)
  {
    forall id ensures Told(a + more, id) <==> Told(b + more, id) {
      ToldBoth(a, more, id);
      ToldBoth(b, more, id);
    }
    if more != [] {
      var n := |more| - 1;
      SameToldSameNew(a, b, more[..n]);
      assert Told(a + more[..n], more[n].message.id) <==> Told(b + more[..n], more[n].message.id);
    }
  }
}
