/** A thread of A2A turns. A caller sends one message at a time; the run it opens carries
    in the whole conversation so far and that message. Rebuilding the conversation from
    such runs gives back what each turn added, once. */
module Turns {
  import opened Vocabulary
  import opened Conversation

  /** One turn, in the order the runs were created: its run, the message that opened it,
      what the agent replied, whether the run completed, and which earlier turns had
      completed when it was opened. */
  datatype Turn = Turn(run: RunId, message: Message, replies: seq<Message>, completed: bool, finished: set<nat>)

  /** A turn can only have seen earlier turns, and a completed run stays completed. */
  ghost predicate InTime(turns: seq<Turn>) {
    forall j, i :: 0 <= j < |turns| && i in turns[j].finished ==> i < j && turns[i].completed
  }

  // ---- the rows the turns leave behind ---------------------------------------------------

  /** The rows of those of the first `n` turns that are in `pick`. */
  ghost function RowsOf(turns: seq<Turn>, n: nat, pick: set<nat>): seq<RunRow>
    requires n <= |turns|
    decreases n, 0
  {
    if n == 0 then []
    else RowsOf(turns, n - 1, pick) + if n - 1 in pick then [RowOf(turns, n - 1)] else []
  }

  /** The messages the caller of turn `i` is taken to have sent: the conversation over
      the turns completed by then, and the one new message. */
  ghost function InputOf(turns: seq<Turn>, i: nat): seq<Message>
    requires i < |turns|
    decreases i, 1
  {
    MessagesOf(ConversationOf(RowsOf(turns, i, turns[i].finished))) + [turns[i].message]
  }

  ghost function RowOf(turns: seq<Turn>, i: nat): RunRow
    requires i < |turns|
    decreases i, 2
  {
    RunRow(turns[i].run, turns[i].completed, InputOf(turns, i), turns[i].replies)
  }

  /** The same rows as if each run had carried in its own message alone. */
  function OwnRowsOf(turns: seq<Turn>, n: nat, pick: set<nat>): seq<RunRow>
    requires n <= |turns|
  {
    if n == 0 then []
    else
      var turn := turns[n - 1];
      OwnRowsOf(turns, n - 1, pick)
      + if n - 1 in pick then [RunRow(turn.run, turn.completed, [turn.message], turn.replies)] else []
  }

  function CompletedBefore(turns: seq<Turn>, n: nat): set<nat>
    requires n <= |turns|
  {
    set i | 0 <= i < n && turns[i].completed
  }

  // ---- the door ---------------------------------------------------------------------------

  function CompletedRows(rows: seq<RunRow>): seq<RunRow> {
    if rows == [] then []
    else CompletedRows(rows[..|rows| - 1]) + if rows[|rows| - 1].completed then [rows[|rows| - 1]] else []
  }

  predicate DistinctIds(messages: seq<Message>) {
    forall i, j :: 0 <= i < j < |messages| ==> messages[i].id != messages[j].id
  }

  method HasDuplicate(messages: seq<Message>) returns (duplicate: bool)
    ensures duplicate <==> !DistinctIds(messages)
  {
    var ids: set<string> := {};
    var i := 0;
    while i < |messages|
      invariant i <= |messages| && DistinctIds(messages[..i])
      invariant forall id :: id in ids <==> exists k :: 0 <= k < i && messages[k].id == id
    {
      if messages[i].id in ids {
        var k :| 0 <= k < i && messages[k].id == messages[i].id;
        return true;
      }
      assert forall k :: 0 <= k < i ==> messages[..i][k] == messages[k];
      assert DistinctIds(messages[..i + 1]);
      ids := ids + {messages[i].id};
      i := i + 1;
    }
    assert messages[..i] == messages;
    return false;
  }

  /** Assembles the input of a new run from the thread's rows and the caller's one
      message; the door refuses exactly a message whose id the conversation has. */
  method OpenTurn(rows: seq<RunRow>, message: Message) returns (input: Option<seq<Message>>)
    ensures var soFar := ConversationOf(CompletedRows(rows));
            input == if Told(soFar, message.id) then None else Some(MessagesOf(soFar) + [message])
  {
    var completed: seq<RunRow> := [];
    var i := 0;
    while i < |rows|
      invariant i <= |rows| && completed == CompletedRows(rows[..i])
    {
      assert rows[..i + 1][..i] == rows[..i];
      if rows[i].completed { completed := completed + [rows[i]]; }
      i := i + 1;
    }
    assert rows[..i] == rows;
    var lines := BuildConversation(completed);
    var messages := MessagesOf(lines) + [message];
    var duplicate := HasDuplicate(messages);
    NewIdExactlyWhenDistinct(lines, message, AllLines(completed));
    return if duplicate then None else Some(messages);
  }

  lemma NewIdExactlyWhenDistinct(lines: seq<Line>, message: Message, all: seq<Line>)
    requires lines == Firsts(all)
    ensures DistinctIds(MessagesOf(lines) + [message]) <==> !Told(lines, message.id)
  {
    IdsAreDistinct(all);
    var messages := MessagesOf(lines) + [message];
    if Told(lines, message.id) {
      var i :| 0 <= i < |lines| && lines[i].message.id == message.id;
      assert messages[i].id == messages[|lines|].id;
    } else {
      assert forall i :: 0 <= i < |lines| ==> messages[i] == lines[i].message;
    }
  }

  // ---- each turn adds only what is new ---------------------------------------------------------

  lemma NobodyPicked(turns: seq<Turn>, few: set<nat>, id: string)
    ensures !Told(AllLines(RowsOf(turns, 0, few)), id)
  {
  }

  lemma {:induction false} PickingMoreTellsMore(turns: seq<Turn>, n: nat, few: set<nat>, many: set<nat>, id: string)
    requires n <= |turns| && forall i :: 0 <= i < n && i in few ==> i in many
    requires Told(AllLines(RowsOf(turns, n, few)), id)
    ensures Told(AllLines(RowsOf(turns, n, many)), id)
  {
    hide Told, RowOf, Lines, Said, AllLines, RowsOf;
    if n == 0 {
      NobodyPicked(turns, few, id);
    } else {
      RowsStep(turns, n, few);
      RowsStep(turns, n, many);
      var a, b := AllLines(RowsOf(turns, n - 1, few)), AllLines(RowsOf(turns, n - 1, many));
      var last := LinesAt(turns, n - 1);
      ToldBoth(a, last, id);
      ToldBoth(b, last, id);
      if Told(a, id) { PickingMoreTellsMore(turns, n - 1, few, many, id); }
    }
  }

  ghost function LinesAt(turns: seq<Turn>, i: nat): seq<Line>
    requires i < |turns|
  {
    Lines(turns[i].run, Said(RowOf(turns, i)))
  }

  lemma RowsStep(turns: seq<Turn>, n: nat, pick: set<nat>)
    requires 0 < n <= |turns|
    ensures var before := AllLines(RowsOf(turns, n - 1, pick));
            AllLines(RowsOf(turns, n, pick)) == if n - 1 in pick then before + LinesAt(turns, n - 1) else before
  {
    var rows := RowsOf(turns, n - 1, pick);
    LastRow(rows, RowOf(turns, n - 1));
    assert rows + [] == rows;
  }

  lemma LinesAppend(run: RunId, a: seq<Message>, b: seq<Message>)
    ensures Lines(run, a + b) == Lines(run, a) + Lines(run, b)
  {
  }

  lemma LastRow(rows: seq<RunRow>, row: RunRow)
    ensures AllLines(rows + [row]) == AllLines(rows) + Lines(row.run, Said(row))
  {
    assert (rows + [row])[..|rows|] == rows;
  }

  /** What a run carried in besides its own message had all been told already. */
  lemma TheRestIsOld(turns: seq<Turn>, j: nat, pick: set<nat>)
    requires InTime(turns) && j < |turns| && turns[j].finished <= pick
    ensures AllTold(AllLines(RowsOf(turns, j, pick)),
                    Lines(turns[j].run, MessagesOf(ConversationOf(RowsOf(turns, j, turns[j].finished)))))
  {
    var earlier := RowsOf(turns, j, turns[j].finished);
    var lines := ConversationOf(earlier);
    forall k | 0 <= k < |lines| ensures Told(AllLines(RowsOf(turns, j, pick)), lines[k].message.id) {
      FirstsTellTheSame(AllLines(earlier), lines[k].message.id);
      assert Told(lines, lines[k].message.id);
      PickingMoreTellsMore(turns, j, turns[j].finished, pick, lines[k].message.id);
    }
  }

  /** One more run that repeats what was told and adds something news. */
  lemma RepeatThenFresh(lines: seq<Line>, others: seq<Line>, again: seq<Line>, news: seq<Line>)
    requires AllTold(lines, again) && SameTold(lines, others) && Firsts(lines) == Firsts(others)
    ensures Firsts(lines + (again + news)) == Firsts(others + news) && SameTold(lines + (again + news), others + news)
  {
    assert lines + (again + news) == (lines + again) + news;
    RepeatingAddsNothing(lines, again);
    FirstsExtend(lines, again);
    FirstsExtend(lines + again, news);
    FirstsExtend(others, news);
    SameToldSameNew(lines + again, others, news);
  }

  /** Reading a turn's row means reading those of the turns it repeats. */
  ghost predicate Closed(turns: seq<Turn>, n: nat, pick: set<nat>)
    requires n <= |turns|
  {
    forall i :: 0 <= i < n && i in pick ==> turns[i].finished <= pick
  }

  lemma EarlierAndOver(turns: seq<Turn>, j: nat, x: nat)
    requires InTime(turns) && j < |turns| && x in turns[j].finished
    ensures x < j && turns[x].completed
  {
  }

  lemma CompletedIsClosed(turns: seq<Turn>, n: nat, pick: set<nat>)
    requires InTime(turns) && n <= |turns| && forall i :: 0 <= i < n && turns[i].completed ==> i in pick
    ensures Closed(turns, n, pick)
  {
    forall i, x | 0 <= i < n && i in pick && x in turns[i].finished ensures x in pick {
      EarlierAndOver(turns, i, x);
    }
  }

  /** Whichever turns had completed when each was opened, and whichever runs are read as
      long as those they repeat are: the conversation is each turn's own message and,
      for a completed turn, its replies, each told once, where it was first told. */
  lemma {:induction false} ConversationIsWhatWasNew(turns: seq<Turn>, n: nat, pick: set<nat>)
    requires InTime(turns) && n <= |turns| && Closed(turns, n, pick)
    ensures ConversationOf(RowsOf(turns, n, pick)) == ConversationOf(OwnRowsOf(turns, n, pick))
    ensures SameTold(AllLines(RowsOf(turns, n, pick)), AllLines(OwnRowsOf(turns, n, pick)))
  {
    if n > 0 { assert Closed(turns, n - 1, pick) && (n - 1 in pick ==> turns[n - 1].finished <= pick); }
    hide InTime, ConversationOf, SameTold, AllLines, RowsOf, OwnRowsOf, Closed;
    if n == 0 {
      NoTurns(turns, pick);
    } else {
      ConversationIsWhatWasNew(turns, n - 1, pick);
      if n - 1 in pick { OneMoreTurn(turns, n - 1, pick); } else { NotPicked(turns, n, pick); }
    }
  }

  lemma NoTurns(turns: seq<Turn>, pick: set<nat>)
    ensures RowsOf(turns, 0, pick) == [] && OwnRowsOf(turns, 0, pick) == []
    ensures SameTold(AllLines(RowsOf(turns, 0, pick)), AllLines(OwnRowsOf(turns, 0, pick)))
  {
  }

  lemma NotPicked(turns: seq<Turn>, n: nat, pick: set<nat>)
    requires 0 < n <= |turns| && n - 1 !in pick
    ensures RowsOf(turns, n, pick) == RowsOf(turns, n - 1, pick)
    ensures OwnRowsOf(turns, n, pick) == OwnRowsOf(turns, n - 1, pick)
  {
  }

  lemma OneMoreTurn(turns: seq<Turn>, j: nat, pick: set<nat>)
    requires InTime(turns) && j < |turns| && j in pick && turns[j].finished <= pick
    requires ConversationOf(RowsOf(turns, j, pick)) == ConversationOf(OwnRowsOf(turns, j, pick))
    requires SameTold(AllLines(RowsOf(turns, j, pick)), AllLines(OwnRowsOf(turns, j, pick)))
    ensures ConversationOf(RowsOf(turns, j + 1, pick)) == ConversationOf(OwnRowsOf(turns, j + 1, pick))
    ensures SameTold(AllLines(RowsOf(turns, j + 1, pick)), AllLines(OwnRowsOf(turns, j + 1, pick)))
  {
    hide SameTold, AllTold, Firsts;
    var turn := turns[j];
    var row, own := RowOf(turns, j), RunRow(turn.run, turn.completed, [turn.message], turn.replies);
    var repeated := MessagesOf(ConversationOf(RowsOf(turns, j, turn.finished)));
    LastRow(RowsOf(turns, j, pick), row);
    LastRow(OwnRowsOf(turns, j, pick), own);
    assert row.carried == InputOf(turns, j) && InputOf(turns, j) == repeated + [turn.message];
    var replies := if turn.completed then turn.replies else [];
    assert (repeated + [turn.message]) + replies == repeated + ([turn.message] + replies);
    LinesAppend(turn.run, repeated, Said(own));
    TheRestIsOld(turns, j, pick);
    RepeatThenFresh(AllLines(RowsOf(turns, j, pick)), AllLines(OwnRowsOf(turns, j, pick)),
                    Lines(turn.run, repeated), Lines(turn.run, Said(own)));
  }

  // ---- turns taken one after another -------------------------------------------------------------

  /** What a run that repeats `again` and then tells `line` and `replies` adds. */
  lemma RepeatThenOwn(soFar: seq<Line>, again: seq<Line>, line: Line, replies: seq<Line>)
    requires AllTold(soFar, again) && !Told(soFar, line.message.id)
    ensures Firsts(soFar + (again + ([line] + replies))) == Firsts(soFar) + [line] + NewAfter(soFar + [line], replies)
  {
    assert SameTold(soFar, soFar);
    hide AllTold, SameTold, Firsts, NewAfter, Told;
    RepeatThenFresh(soFar, soFar, again, [line] + replies);
    FirstsTellTheSame(soFar, line.message.id);
    assert soFar + ([line] + replies) == (soFar + [line]) + replies;
    FirstsExtend(soFar + [line], replies);
    FirstsOneMore(soFar, line);
  }

  /** A completed run's own row: the conversation it was handed, its message, its replies. */
  lemma CompletedLines(turns: seq<Turn>, j: nat)
    requires j < |turns| && turns[j].completed
    ensures var turn := turns[j];
            LinesAt(turns, j)
            == Lines(turn.run, MessagesOf(ConversationOf(RowsOf(turns, j, turn.finished))))
               + ([Line(turn.run, turn.message)] + Lines(turn.run, turn.replies))
  {
    hide RowsOf, ConversationOf, MessagesOf;
    var turn := turns[j];
    var before := MessagesOf(ConversationOf(RowsOf(turns, j, turn.finished)));
    assert InputOf(turns, j) == before + [turn.message];
    assert Said(RowOf(turns, j)) == before + ([turn.message] + turn.replies);
    LinesAppend(turn.run, before, [turn.message] + turn.replies);
    LinesAppend(turn.run, [turn.message], turn.replies);
    assert Lines(turn.run, [turn.message]) == [Line(turn.run, turn.message)];
  }

  /** When a turn opens after every earlier run is over, and the door takes its message,
      the completed turn adds that message and then the replies nobody had told, all under
      its own run; nothing before it moves. */
  lemma {:induction false} ACompletedTurnAddsItself(turns: seq<Turn>, j: nat)
    requires InTime(turns) && j < |turns| && turns[j].completed && turns[j].finished == CompletedBefore(turns, j)
    requires !Told(ConversationOf(RowsOf(turns, j, turns[j].finished)), turns[j].message.id)
    ensures var turn, done := turns[j], CompletedBefore(turns, |turns|);
            var soFar := AllLines(RowsOf(turns, j, done));
            var line := Line(turn.run, turn.message);
            && ConversationOf(RowsOf(turns, j, done)) == ConversationOf(RowsOf(turns, j, turn.finished))
            && ConversationOf(RowsOf(turns, j + 1, done))
               == ConversationOf(RowsOf(turns, j, done)) + [line]
                  + NewAfter(soFar + [line], Lines(turn.run, turn.replies))
  {
    var turn, done := turns[j], CompletedBefore(turns, |turns|);
    SamePick(turns, j, done, turn.finished);
    assert turn.finished <= done;
    TheRestIsOld(turns, j, done);
    hide RowsOf, AllTold, Told, Firsts, AllLines, Lines, MessagesOf, NewAfter, InTime;
    var soFar := AllLines(RowsOf(turns, j, done));
    RowsStep(turns, j + 1, done);
    CompletedLines(turns, j);
    FirstsTellTheSame(soFar, turn.message.id);
    RepeatThenOwn(soFar, Lines(turn.run, MessagesOf(ConversationOf(RowsOf(turns, j, turn.finished)))),
                  Line(turn.run, turn.message), Lines(turn.run, turn.replies));
  }

  lemma {:induction false} SamePick(turns: seq<Turn>, n: nat, p: set<nat>, q: set<nat>)
    requires n <= |turns| && forall i :: 0 <= i < n ==> (i in p <==> i in q)
    ensures RowsOf(turns, n, p) == RowsOf(turns, n, q)
  {
    if n > 0 { SamePick(turns, n - 1, p, q); }
  }

  // ---- one task's messages ---------------------------------------------------------------------------

  function FromRuns(lines: seq<Line>, runs: set<RunId>): seq<Message> {
    if lines == [] then []
    else
      var n := |lines| - 1;
      FromRuns(lines[..n], runs) + if lines[n].source in runs then [lines[n].message] else []
  }

  /** The messages that first appear in one of a lineage's runs. */
  method TaskMessages(rows: seq<RunRow>, lineage: set<RunId>) returns (messages: seq<Message>)
    ensures messages == FromRuns(ConversationOf(rows), lineage)
  {
    var lines := BuildConversation(rows);
    messages := [];
    var i := 0;
    while i < |lines|
      invariant i <= |lines| && messages == FromRuns(lines[..i], lineage)
    {
      assert lines[..i + 1][..i] == lines[..i];
      if lines[i].source in lineage { messages := messages + [lines[i].message]; }
      i := i + 1;
    }
    assert lines[..i] == lines;
  }

  /** A message of turn `i`'s own: the one that opened it, or a reply if it completed. */
  predicate OwnMessage(turn: Turn, m: Message) {
    m == turn.message || (turn.completed && m in turn.replies)
  }

  lemma {:induction false} OwnLine(turns: seq<Turn>, n: nat, pick: set<nat>, k: nat) returns (i: nat)
    requires n <= |turns| && k < |AllLines(OwnRowsOf(turns, n, pick))|
    ensures i < n && i in pick && AllLines(OwnRowsOf(turns, n, pick))[k].source == turns[i].run
    ensures OwnMessage(turns[i], AllLines(OwnRowsOf(turns, n, pick))[k].message)
  {
    if n - 1 in pick {
      var turn := turns[n - 1];
      var own := RunRow(turn.run, turn.completed, [turn.message], turn.replies);
      var before := OwnRowsOf(turns, n - 1, pick);
      LastRow(before, own);
      if k < |AllLines(before)| {
        i := OwnLine(turns, n - 1, pick, k);
      } else {
        i := n - 1;
      }
    } else {
      assert OwnRowsOf(turns, n, pick) == OwnRowsOf(turns, n - 1, pick);
      i := OwnLine(turns, n - 1, pick, k);
    }
  }

  /** A task's messages come from its own turns alone: what opened them, or what they
      replied, though every run's row repeats the conversation before it. */
  lemma TaskMessagesAreItsOwn(turns: seq<Turn>, pick: set<nat>, lineage: set<RunId>, k: nat) returns (i: nat)
    requires InTime(turns) && forall i :: 0 <= i < |turns| && turns[i].completed ==> i in pick
    requires k < |FromRuns(ConversationOf(RowsOf(turns, |turns|, pick)), lineage)|
    ensures i < |turns| && i in pick && turns[i].run in lineage
    ensures OwnMessage(turns[i], FromRuns(ConversationOf(RowsOf(turns, |turns|, pick)), lineage)[k])
  {
    CompletedIsClosed(turns, |turns|, pick);
    ConversationIsWhatWasNew(turns, |turns|, pick);
    var own := AllLines(OwnRowsOf(turns, |turns|, pick));
    var x := FromRunsAt(Firsts(own), lineage, k);
    var y := AttributedToTheFirst(own, x);
    i := OwnLine(turns, |turns|, pick, y);
  }

  lemma {:induction false} FromRunsAt(lines: seq<Line>, runs: set<RunId>, k: nat) returns (i: nat)
    requires k < |FromRuns(lines, runs)|
    ensures i < |lines| && lines[i].source in runs && lines[i].message == FromRuns(lines, runs)[k]
  {
    var n := |lines| - 1;
    if k < |FromRuns(lines[..n], runs)| {
      i := FromRunsAt(lines[..n], runs, k);
    } else {
      i := n;
    }
  }

  lemma {:induction false} FromRunsKeeps(lines: seq<Line>, runs: set<RunId>, k: nat)
    requires k < |lines| && lines[k].source in runs
    ensures |FromRuns(lines[..k], runs)| < |FromRuns(lines, runs)|
    ensures FromRuns(lines, runs)[|FromRuns(lines[..k], runs)|] == lines[k].message
  {
    var n := |lines| - 1;
    if k < n {
      FromRunsKeeps(lines[..n], runs, k);
      assert lines[..n][..k] == lines[..k];
    }
  }

  lemma {:induction false} FirstTellingIsKept(lines: seq<Line>, y: nat) returns (x: nat)
    requires y < |lines| && !Told(lines[..y], lines[y].message.id)
    ensures x < |Firsts(lines)| && Firsts(lines)[x] == lines[y]
  {
    var n := |lines| - 1;
    if y < n {
      assert lines[..n][..y] == lines[..y];
      x := FirstTellingIsKept(lines[..n], y);
    } else {
      x := |Firsts(lines[..n])|;
    }
  }

  /** And none of them is missing: whatever one of the lineage's turns told that nobody had
      told before it is among the messages, each at its place in the order of telling. */
  lemma TaskMessagesMissNone(turns: seq<Turn>, pick: set<nat>, lineage: set<RunId>, y: nat) returns (k: nat)
    requires InTime(turns) && forall i :: 0 <= i < |turns| && turns[i].completed ==> i in pick
    requires y < |AllLines(OwnRowsOf(turns, |turns|, pick))|
    requires var told := AllLines(OwnRowsOf(turns, |turns|, pick));
             told[y].source in lineage && !Told(told[..y], told[y].message.id)
    ensures var lines := ConversationOf(RowsOf(turns, |turns|, pick));
            && k < |FromRuns(lines, lineage)|
            && FromRuns(lines, lineage)[k] == AllLines(OwnRowsOf(turns, |turns|, pick))[y].message
  {
    CompletedIsClosed(turns, |turns|, pick);
    ConversationIsWhatWasNew(turns, |turns|, pick);
    var own := AllLines(OwnRowsOf(turns, |turns|, pick));
    var x := FirstTellingIsKept(own, y);
    FromRunsKeeps(Firsts(own), lineage, x);
    k := |FromRuns(Firsts(own)[..x], lineage)|;
  }

  // ---- the turn being opened -----------------------------------------------------------------

  /** Of two turns the later sees every completion the earlier saw. */
  ghost predicate Persistent(turns: seq<Turn>) {
    forall i, j :: 0 <= i < j < |turns| ==> turns[i].finished <= turns[j].finished
  }

  /** The thread's rows as turn `j` finds them: every earlier run, completed or not by then. */
  ghost function RowsSeen(turns: seq<Turn>, j: nat, n: nat): seq<RunRow>
    requires n <= j < |turns|
  {
    if n == 0 then []
    else RowsSeen(turns, j, n - 1)
         + [RunRow(turns[n - 1].run, n - 1 in turns[j].finished, InputOf(turns, n - 1), turns[n - 1].replies)]
  }

  /** The completed rows among them are the rows of the turns that had completed. */
  lemma {:induction false} CompletedAmongSeen(turns: seq<Turn>, j: nat, n: nat)
    requires InTime(turns) && n <= j < |turns|
    ensures CompletedRows(RowsSeen(turns, j, n)) == RowsOf(turns, n, turns[j].finished)
  {
    if n > 0 {
      CompletedAmongSeen(turns, j, n - 1);
      var rows := RowsSeen(turns, j, n);
      assert rows[..|rows| - 1] == RowsSeen(turns, j, n - 1);
      assert n - 1 in turns[j].finished ==> turns[n - 1].completed;
    }
  }

  /** A turn that had completed told a message of this id, of its own. */
  ghost predicate SaidBefore(turns: seq<Turn>, j: nat, id: string)
    requires j < |turns|
  {
    exists i :: 0 <= i < j && i in turns[j].finished && TellsId(turns[i], id)
  }

  ghost predicate TellsId(turn: Turn, id: string) {
    turn.message.id == id || exists k :: 0 <= k < |turn.replies| && turn.replies[k].id == id
  }

  lemma {:induction false} OwnRowsTell(turns: seq<Turn>, n: nat, pick: set<nat>, id: string)
    requires n <= |turns| && forall i :: 0 <= i < n && i in pick ==> turns[i].completed
    ensures Told(AllLines(OwnRowsOf(turns, n, pick)), id) <==>
            exists i :: 0 <= i < n && i in pick && TellsId(turns[i], id)
  {
    hide TellsId;
    if n > 0 {
      OwnRowsTell(turns, n - 1, pick, id);
      var before := OwnRowsOf(turns, n - 1, pick);
      if n - 1 in pick {
        var turn := turns[n - 1];
        var own := RunRow(turn.run, turn.completed, [turn.message], turn.replies);
        LastRow(before, own);
        ToldBoth(AllLines(before), Lines(own.run, Said(own)), id);
        OwnRowTells(turn, id);
      } else {
        assert OwnRowsOf(turns, n, pick) == before;
      }
    }
  }

  lemma OwnRowTells(turn: Turn, id: string)
    requires turn.completed
    ensures Told(Lines(turn.run, [turn.message] + turn.replies), id) <==> TellsId(turn, id)
  {
    var lines := Lines(turn.run, [turn.message] + turn.replies);
    assert lines[0].message == turn.message;
    assert forall k :: 0 <= k < |turn.replies| ==> lines[k + 1].message == turn.replies[k];
    if Told(lines, id) {
      var i :| 0 <= i < |lines| && lines[i].message.id == id;
      if i > 0 { assert turn.replies[i - 1].id == id; }
    }
  }

  /** What opening a turn gives, on the rows it finds: exactly its input, or a refusal when a
      completed turn before it told a message of that id, and only then. */
  lemma OpeningGivesTheInput(turns: seq<Turn>, j: nat)
    requires InTime(turns) && Persistent(turns) && j < |turns|
    ensures var soFar := ConversationOf(CompletedRows(RowsSeen(turns, j, j)));
            && MessagesOf(soFar) + [turns[j].message] == InputOf(turns, j)
            && (Told(soFar, turns[j].message.id) <==> SaidBefore(turns, j, turns[j].message.id))
  {
    var pick, id := turns[j].finished, turns[j].message.id;
    CompletedAmongSeen(turns, j, j);
    assert Closed(turns, j, pick);
    ConversationIsWhatWasNew(turns, j, pick);
    FirstsTellTheSame(AllLines(OwnRowsOf(turns, j, pick)), id);
    OwnRowsTell(turns, j, pick, id);
  }

  /** No message is in a turn's input but its own and what completed turns before it told. */
  lemma InputIsFromCompletedTurns(turns: seq<Turn>, j: nat, k: nat) returns (i: nat)
    requires InTime(turns) && Persistent(turns) && j < |turns| && k < |InputOf(turns, j)| - 1
    ensures i < j && i in turns[j].finished && turns[i].completed && OwnMessage(turns[i], InputOf(turns, j)[k])
  {
    var pick := turns[j].finished;
    assert Closed(turns, j, pick);
    ConversationIsWhatWasNew(turns, j, pick);
    var own := AllLines(OwnRowsOf(turns, j, pick));
    var y := AttributedToTheFirst(own, k);
    i := OwnLine(turns, j, pick, y);
  }
}
