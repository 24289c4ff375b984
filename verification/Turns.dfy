/** What one applied event does to a stored task, which events a turn or a cancel
    applies, and what a serial run of turns and cancels leaves behind. */
module Turns {
  import opened Types
  import opened Sequences
  import opened Artifacts

  /** What applying an event needs besides the event: the ids of the task, the
      inbound message of the turn, and the clock reading used if the task has to
      be created. */
  datatype Frame = Frame(taskId: string, contextId: string, seed: Message, now: DateTime)

  function Seeded(cur: Option<Task>, f: Frame, first: bool, initial: TaskState): Task {
    match cur
    case Some(t) => if first then t.(history := t.history + [f.seed]) else t
    case None => NewTask(f.taskId, f.contextId, initial, f.now).(history := [f.seed])
  }

  /** The stored record after one event. */
  function Applied(cur: Option<Task>, f: Frame, first: bool, evt: StreamResponse): Option<Task> {
    match evt
    case StatusUpdate(u) =>
      var t := Seeded(cur, f, first, Submitted);
      var recorded := match u.status.message case Some(m) => [m] case None => [];
      Some(t.(status := u.status, history := t.history + recorded))
    case ArtifactUpdate(u) =>
      var t := Seeded(cur, f, first, Working);
      Some(t.(artifacts := Merge(t.artifacts, u)))
    case _ => cur
  }

  function FoldEvents(cur: Option<Task>, f: Frame, isTurn: bool, evs: seq<StreamResponse>): Option<Task> {
    if evs == [] then cur
    else
      var n := |evs| - 1;
      Applied(FoldEvents(cur, f, isTurn, evs[..n]), f, isTurn && n == 0, evs[n])
  }

  lemma FoldSnoc(cur: Option<Task>, f: Frame, isTurn: bool, evs: seq<StreamResponse>, evt: StreamResponse)
    ensures FoldEvents(cur, f, isTurn, evs + [evt])
         == Applied(FoldEvents(cur, f, isTurn, evs), f, isTurn && evs == [], evt)
  {
    assert (evs + [evt])[..|evs|] == evs;
  }

  predicate IsTerminalTask(cur: Option<Task>) {
    cur.Some? && cur.value.status.state.IsTerminal()
  }

  // ---- History length ----

  function Trimmed(t: Task, historyLength: Option<int>): Task {
    match historyLength
    case None => t
    case Some(n) =>
      if n <= 0 then t.(history := [])
      else if |t.history| > n then t.(history := t.history[|t.history| - n..])
      else t
  }

  /** A trimmed history is the most recent part of the stored one, no longer than
      asked for and no shorter than it has to be; nothing else is touched. */
  lemma TrimmedHistory(t: Task, n: nat)
    ensures var r := Trimmed(t, Some(n));
            && |r.history| == (if n < |t.history| then n else |t.history|)
            && t.history == t.history[..|t.history| - |r.history|] + r.history
            && r == t.(history := r.history)
    ensures Trimmed(t, None) == t
  {
    var r := Trimmed(t, Some(n));
    assert r.history == t.history[|t.history| - |r.history|..];
  }

  // ---- Which events a turn applies ----

  predicate IsEmptyArtifactUpdate(evt: StreamResponse) {
    evt.ArtifactUpdate? && evt.artifactUpdate.artifact.parts == []
  }

  const Kept := (evt: StreamResponse) => !IsEmptyArtifactUpdate(evt)
  const Closes := (evt: StreamResponse) => evt.ClosesStream()

  /** What is left of the executor's events: artifact updates without parts are
      dropped and nothing after the first closing event is looked at. */
  function Processed(raw: seq<StreamResponse>): seq<StreamResponse> {
    UpToFirst(Filter(raw, Kept), Closes)
  }

  predicate HasOutcome(evs: seq<StreamResponse>) {
    exists i | 0 <= i < |evs| :: evs[i].IsTurnOutcome()
  }

  /** A turn has an outcome with a bare message or a status in one of six states. All of
      them close the stream, but for AUTH_REQUIRED. */
  lemma OutcomesAndClosings(evt: StreamResponse)
    ensures evt.IsTurnOutcome() <==>
              || evt.BareMessage?
              || (evt.StatusUpdate?
                  && evt.statusUpdate.status.state in
                       {Completed, Failed, Canceled, Rejected, InputRequired, AuthRequired})
    ensures evt.ClosesStream() <==>
              evt.IsTurnOutcome() && !(evt.StatusUpdate? && evt.statusUpdate.status.state == AuthRequired)
  {
    if evt.StatusUpdate? {
      var state := evt.statusUpdate.status.state;
      assert state.IsFinalForBlockingSend() <==> state.IsTerminal() || state == InputRequired || state == AuthRequired;
    }
  }

  datatype Ending = ReturnedOk | ReturnedErr(text: string) | Panicked(text: string)

  /** The identity and time a server-made message is stamped with. */
  datatype Stamp = Stamp(messageId: string, at: DateTime)

  function FailureText(ending: Ending): string
    requires !ending.ReturnedOk?
  {
    match ending
    case ReturnedErr(text) => text
    case Panicked(text) => "agent executor panicked: " + text
  }

  function FailureEvent(f: Frame, reason: string, stamp: Stamp): StreamResponse {
    var message := Message(stamp.messageId, Some(f.contextId), Some(f.taskId), Agent,
                           [Part(Text(reason), None, None, None)], None, [], []);
    StatusUpdate(TaskStatusUpdateEvent(f.taskId, f.contextId,
                                       TaskStatus(Failed, Some(message), Some(stamp.at)), None))
  }

  function TurnEvents(f: Frame, raw: seq<StreamResponse>, ending: Ending, stamp: Stamp): seq<StreamResponse> {
    var p := Processed(raw);
    if HasOutcome(p) || ending.ReturnedOk? then p else p + [FailureEvent(f, FailureText(ending), stamp)]
  }

  /** What the turn's bus carries: the task as it stood before the turn, unless the
      turn opens with a bare message, then every applied event. */
  function TurnBus(lead: Task, evs: seq<StreamResponse>): seq<StreamResponse> {
    if evs == [] || evs[0].BareMessage? then evs else [TaskObject(lead)] + evs
  }

  /** The same from the front: an executor's events without artifact updates that have no
      parts. */
  function WithParts(raw: seq<StreamResponse>): seq<StreamResponse> {
    if raw == [] then []
    else if raw[0].ArtifactUpdate? && raw[0].artifactUpdate.artifact.parts == [] then WithParts(raw[1..])
    else [raw[0]] + WithParts(raw[1..])
  }

  /** What a pump hears of them: up to the first bare message or status in one of the five
      states that end a turn. */
  function Heard(evs: seq<StreamResponse>): seq<StreamResponse> {
    if evs == [] then []
    else if || evs[0].BareMessage?
            || (evs[0].StatusUpdate?
                && evs[0].statusUpdate.status.state in {Completed, Failed, Canceled, Rejected, InputRequired})
    then [evs[0]]
    else [evs[0]] + Heard(evs[1..])
  }

  lemma {:induction false} KeptHaveParts(raw: seq<StreamResponse>)
    ensures Filter(raw, Kept) == WithParts(raw)
  {
    if raw != [] {
      assert raw == [raw[0]] + raw[1..] && [raw[0]] == [] + [raw[0]];
      FilterConcat([raw[0]], raw[1..], Kept);
      FilterSnoc([], raw[0], Kept);
      KeptHaveParts(raw[1..]);
    }
  }

  lemma {:induction false} CutIsHeard(evs: seq<StreamResponse>)
    ensures UpToFirst(evs, Closes) == Heard(evs)
  {
    if evs != [] {
      OutcomesAndClosings(evs[0]);
      CutIsHeard(evs[1..]);
    }
  }

  /** Of an executor's events exactly those are applied: none is skipped, none reordered,
      and nothing after the one that ends the turn. */
  lemma ProcessedMeaning(raw: seq<StreamResponse>)
    ensures Filter(raw, Kept) == WithParts(raw)
    ensures Processed(raw) == Heard(WithParts(raw))
  {
    KeptHaveParts(raw);
    CutIsHeard(WithParts(raw));
  }

  predicate NoTaskObjects(evs: seq<StreamResponse>) {
    forall i | 0 <= i < |evs| :: !evs[i].TaskObject?
  }

  predicate NoEmptyUpdates(evs: seq<StreamResponse>) {
    forall i | 0 <= i < |evs| :: !IsEmptyArtifactUpdate(evs[i])
  }

  lemma ProcessedSound(raw: seq<StreamResponse>)
    ensures forall i | 0 <= i < |Processed(raw)| :: Processed(raw)[i] in raw && Kept(Processed(raw)[i])
    ensures StopsOnlyLast(Processed(raw), Closes)
    ensures NoneStops(Processed(raw), Closes) ==> Processed(raw) == Filter(raw, Kept)
  {
    var kept, p := Filter(raw, Kept), Processed(raw);
    UpToFirstStopsOnlyLast(kept, Closes);
    forall i | 0 <= i < |p| ensures p[i] in raw && Kept(p[i]) {
      assert p[i] == kept[i];
      FilterSound(raw, Kept, p[i]);
    }
  }

  lemma TurnEventsShape(f: Frame, raw: seq<StreamResponse>, ending: Ending, stamp: Stamp)
    requires NoTaskObjects(raw)
    ensures var evs := TurnEvents(f, raw, ending, stamp);
            NoTaskObjects(evs) && NoEmptyUpdates(evs) && StopsOnlyLast(evs, Closes)
  {
    ProcessedSound(raw);
    var p, evs := Processed(raw), TurnEvents(f, raw, ending, stamp);
    if evs != p {
      forall i | 0 <= i < |evs| - 1 ensures !Closes(evs[i]) {
        assert evs[i] == p[i] && !p[i].IsTurnOutcome();
      }
    }
  }

  /** The stream a caller of SendStreamingMessage reads is the whole bus: one task
      object and then the kept events in order, with at most one closing event, at
      the end; or the single message a turn opens with. AUTH_REQUIRED is passed on
      and does not end the stream. */
  lemma StreamShape(f: Frame, raw: seq<StreamResponse>, ending: Ending, stamp: Stamp, lead: Task)
    requires NoTaskObjects(raw)
    ensures var evs := TurnEvents(f, raw, ending, stamp);
            var stream := UpToFirst(TurnBus(lead, evs), Closes);
            && (evs == [] ==> stream == [])
            && (evs != [] && evs[0].BareMessage? ==> stream == [evs[0]])
            && (evs != [] && !evs[0].BareMessage? ==> stream == [TaskObject(lead)] + evs)
            && StopsOnlyLast(stream, Closes)
            && (forall i | 0 <= i < |stream| - 1 :: !stream[i].BareMessage?)
    ensures NoneStops(Filter(raw, Kept), Closes) ==> Filter(raw, Kept) <= TurnEvents(f, raw, ending, stamp)
  {
    TurnEventsShape(f, raw, ending, stamp);
    var evs := TurnEvents(f, raw, ending, stamp);
    var bus := TurnBus(lead, evs);
    forall i | 0 <= i < |bus| - 1 ensures !Closes(bus[i]) {
      if bus != evs && i > 0 {
        assert bus[i] == evs[i - 1];
      }
    }
    CutOfWhole(bus, Closes);
    forall i | 0 <= i < |bus| - 1 ensures !bus[i].BareMessage? {
      assert !Closes(bus[i]);
    }
    if NoneStops(Filter(raw, Kept), Closes) {
      CutOfWhole(Filter(raw, Kept), Closes);
    }
  }

  /** When a turn is over, either its events contain a real outcome or the executor
      returned without one. A Failed status is synthesized exactly when the executor
      failed before any outcome, it comes last, it tells the client what the executor
      failed with, and it is what the record then says. */
  lemma OutcomeTotality(cur: Option<Task>, f: Frame, raw: seq<StreamResponse>, ending: Ending, stamp: Stamp)
    ensures var evs := TurnEvents(f, raw, ending, stamp);
            && (HasOutcome(evs) || ending.ReturnedOk?)
            && (HasOutcome(Processed(raw)) ==> evs == Processed(raw))
            && (!HasOutcome(Processed(raw)) && !ending.ReturnedOk? ==>
                  var final := FoldEvents(cur, f, true, evs);
                  && |evs| == |Processed(raw)| + 1
                  && (forall i | 0 <= i < |evs| - 1 :: !evs[i].IsTurnOutcome())
                  && final.Some? && final.value.status.state == Failed
                  && final.value.history != []
                  && var told := final.value.history[|final.value.history| - 1];
                  && told.role == Agent
                  && told.contextId == Some(f.contextId) && told.taskId == Some(f.taskId)
                  && told.messageId == stamp.messageId
                  && told.parts == [Part(Text(match ending
                                              case ReturnedErr(text) => text
                                              case Panicked(text) => "agent executor panicked: " + text
                                              case ReturnedOk => ""), None, None, None)]
                  && final.value.status == TaskStatus(Failed, Some(told), Some(stamp.at))
                  && evs[|evs| - 1]
                     == StatusUpdate(TaskStatusUpdateEvent(f.taskId, f.contextId, final.value.status, None)))
  {
    var p, evs := Processed(raw), TurnEvents(f, raw, ending, stamp);
    if !HasOutcome(p) && !ending.ReturnedOk? {
      assert evs[|p|].IsTurnOutcome();
      FoldSnoc(cur, f, true, p, evs[|p|]);
    }
  }

  // ---- Status of the folded record ----

  lemma LastStatusWins(cur: Option<Task>, f: Frame, isTurn: bool, evs: seq<StreamResponse>)
    requires evs != [] && evs[|evs| - 1].StatusUpdate?
    ensures var final := FoldEvents(cur, f, isTurn, evs);
            final.Some? && final.value.status == evs[|evs| - 1].statusUpdate.status
  {
  }

  /** Without a closing event a record that was not terminal does not become so. */
  lemma {:induction false} StaysOpen(cur: Option<Task>, f: Frame, isTurn: bool, evs: seq<StreamResponse>)
    requires !IsTerminalTask(cur) && NoneStops(evs, Closes)
    ensures !IsTerminalTask(FoldEvents(cur, f, isTurn, evs))
  {
    if evs != [] {
      StaysOpen(cur, f, isTurn, evs[..|evs| - 1]);
      assert !Closes(evs[|evs| - 1]);
    }
  }

  /** Inside a turn the record is terminal only after the turn's last event. */
  lemma TerminalEndsTurn(cur: Option<Task>, f: Frame, evs: seq<StreamResponse>, i: nat)
    requires !IsTerminalTask(cur) && StopsOnlyLast(evs, Closes) && i <= |evs|
    requires IsTerminalTask(FoldEvents(cur, f, true, evs[..i]))
    ensures i == |evs|
  {
    if i < |evs| {
      StaysOpen(cur, f, true, evs[..i]);
    }
  }

  // ---- History ----

  function HistoryOf(cur: Option<Task>): seq<Message> {
    match cur case Some(t) => t.history case None => []
  }

  function StatusMessages(evs: seq<StreamResponse>): seq<Message> {
    if evs == [] then []
    else
      var n := |evs| - 1;
      StatusMessages(evs[..n]) +
      (if evs[n].StatusUpdate? && evs[n].statusUpdate.status.message.Some?
       then [evs[n].statusUpdate.status.message.value] else [])
  }

  predicate TaskShaped(evs: seq<StreamResponse>) {
    evs != [] && !evs[0].BareMessage?
  }

  function TurnContribution(f: Frame, evs: seq<StreamResponse>): seq<Message> {
    if TaskShaped(evs) then [f.seed] + StatusMessages(evs) else []
  }

  lemma AppliedHistory(cur: Option<Task>, f: Frame, first: bool, evt: StreamResponse)
    requires !evt.TaskObject?
    ensures HistoryOf(Applied(cur, f, first, evt))
         == HistoryOf(cur)
            + (if evt.BareMessage? then []
               else (if first || cur.None? then [f.seed] else []) + StatusMessages([evt]))
  {
    var h := HistoryOf(cur);
    assert [evt][..0] == [];
    assert StatusMessages([evt])
        == if evt.StatusUpdate? && evt.statusUpdate.status.message.Some?
           then [evt.statusUpdate.status.message.value] else [];
    if evt.StatusUpdate? {
      assert (h + [f.seed]) + StatusMessages([evt]) == h + ([f.seed] + StatusMessages([evt]));
      assert h + StatusMessages([evt]) == h + ([] + StatusMessages([evt]));
    }
  }

  lemma ContributionSnoc(f: Frame, evs: seq<StreamResponse>)
    requires |evs| > 1 && !evs[0].BareMessage?
    ensures var n := |evs| - 1;
            && TaskShaped(evs[..n])
            && TurnContribution(f, evs) == TurnContribution(f, evs[..n]) + StatusMessages([evs[n]])
  {
    var n := |evs| - 1;
    assert evs[..n][0] == evs[0];
    assert [evs[n]][..0] == [];
    assert StatusMessages(evs) == StatusMessages(evs[..n]) + StatusMessages([evs[n]]);
  }

  lemma {:induction false} TurnHistory(cur: Option<Task>, f: Frame, evs: seq<StreamResponse>)
    requires NoTaskObjects(evs) && StopsOnlyLast(evs, Closes)
    ensures HistoryOf(FoldEvents(cur, f, true, evs)) == HistoryOf(cur) + TurnContribution(f, evs)
    ensures TaskShaped(evs) ==> FoldEvents(cur, f, true, evs).Some?
    ensures !TaskShaped(evs) ==> FoldEvents(cur, f, true, evs) == cur
  {
    if |evs| == 1 {
      assert evs[..0] == [] && evs == [evs[0]];
      AppliedHistory(cur, f, true, evs[0]);
    } else if |evs| > 1 {
      var n := |evs| - 1;
      assert !Closes(evs[0]);
      TurnHistory(cur, f, evs[..n]);
      AppliedHistory(FoldEvents(cur, f, true, evs[..n]), f, false, evs[n]);
      ContributionSnoc(f, evs);
    }
  }

  lemma {:induction false} CancelHistory(cur: Option<Task>, f: Frame, evs: seq<StreamResponse>)
    requires cur.Some?
    ensures var final := FoldEvents(cur, f, false, evs);
            final.Some? && final.value.history == cur.value.history + StatusMessages(evs)
  {
    if evs != [] {
      CancelHistory(cur, f, evs[..|evs| - 1]);
    }
  }

  lemma {:induction false} MessagesConcat(a: seq<StreamResponse>, b: seq<StreamResponse>)
    ensures StatusMessages(a + b) == StatusMessages(a) + StatusMessages(b)
  {
    if b == [] {
      assert a + b == a;
    } else {
      var n := |b| - 1;
      assert (a + b)[..|a| + n] == a + b[..n];
      MessagesConcat(a, b[..n]);
    }
  }

  // ---- Artifacts ----

  function ArtifactsOf(cur: Option<Task>): seq<Artifact> {
    match cur case Some(t) => t.artifacts case None => []
  }

  function Updates(evs: seq<StreamResponse>): seq<Update> {
    if evs == [] then []
    else
      var n := |evs| - 1;
      Updates(evs[..n]) + (if evs[n].ArtifactUpdate? then [evs[n].artifactUpdate] else [])
  }

  lemma AppliedArtifacts(cur: Option<Task>, f: Frame, first: bool, evt: StreamResponse)
    ensures ArtifactsOf(Applied(cur, f, first, evt))
         == if evt.ArtifactUpdate? then Merge(ArtifactsOf(cur), evt.artifactUpdate) else ArtifactsOf(cur)
  {
  }

  lemma MergeOneMore(us: seq<Update>, evs: seq<StreamResponse>)
    requires evs != []
    ensures var n := |evs| - 1;
            MergeAll(us + Updates(evs))
            == if evs[n].ArtifactUpdate? then Merge(MergeAll(us + Updates(evs[..n])), evs[n].artifactUpdate)
               else MergeAll(us + Updates(evs[..n]))
  {
    var n := |evs| - 1;
    var shorter := us + Updates(evs[..n]);
    if evs[n].ArtifactUpdate? {
      var longer := us + Updates(evs);
      assert longer == shorter + [evs[n].artifactUpdate];
      assert longer[..|shorter|] == shorter;
    } else {
      assert us + Updates(evs) == shorter;
    }
  }

  lemma {:induction false} FoldArtifacts(cur: Option<Task>, f: Frame, isTurn: bool, evs: seq<StreamResponse>,
                                         us: seq<Update>)
    requires ArtifactsOf(cur) == MergeAll(us)
    ensures ArtifactsOf(FoldEvents(cur, f, isTurn, evs)) == MergeAll(us + Updates(evs))
  {
    if evs == [] {
      assert us + Updates(evs) == us;
    } else {
      var n := |evs| - 1;
      FoldArtifacts(cur, f, isTurn, evs[..n], us);
      AppliedArtifacts(FoldEvents(cur, f, isTurn, evs[..n]), f, isTurn && n == 0, evs[n]);
      MergeOneMore(us, evs);
    }
  }

  // ---- When later events leave a record as it is ----

  function LastStatus(status: TaskStatus, evs: seq<StreamResponse>): TaskStatus {
    if evs == [] then status
    else
      var n := |evs| - 1;
      if evs[n].StatusUpdate? then evs[n].statusUpdate.status else LastStatus(status, evs[..n])
  }

  /** What further events make of a record: the last status they report, the messages they
      carry, and their artifact updates merged in. */
  function FoldedOn(t: Task, evs: seq<StreamResponse>): Task {
    t.(status := LastStatus(t.status, evs),
       history := t.history + StatusMessages(evs),
       artifacts := MergedInto(t.artifacts, Updates(evs)))
  }

  lemma HistoryOn(h: seq<Message>, evs: seq<StreamResponse>)
    requires evs != []
    ensures var n := |evs| - 1;
            h + StatusMessages(evs)
            == (h + StatusMessages(evs[..n]))
               + (if evs[n].StatusUpdate? && evs[n].statusUpdate.status.message.Some?
                  then [evs[n].statusUpdate.status.message.value] else [])
  {
  }

  lemma ArtifactsOn(artifacts: seq<Artifact>, evs: seq<StreamResponse>)
    requires evs != []
    ensures var n := |evs| - 1;
            MergedInto(artifacts, Updates(evs))
            == if evs[n].ArtifactUpdate? then Merge(MergedInto(artifacts, Updates(evs[..n])), evs[n].artifactUpdate)
               else MergedInto(artifacts, Updates(evs[..n]))
  {
    if evs[|evs| - 1].ArtifactUpdate? {
      assert Updates(evs)[..|Updates(evs)| - 1] == Updates(evs[..|evs| - 1]);
    } else {
      assert Updates(evs) == Updates(evs[..|evs| - 1]);
    }
  }

  lemma FoldedOnSnoc(t: Task, f: Frame, evs: seq<StreamResponse>)
    requires evs != []
    ensures var n := |evs| - 1;
            Applied(Some(FoldedOn(t, evs[..n])), f, false, evs[n]) == Some(FoldedOn(t, evs))
  {
    HistoryOn(t.history, evs);
    ArtifactsOn(t.artifacts, evs);
    var h := t.history + StatusMessages(evs[..|evs| - 1]);
    assert h + [] == h;
  }

  lemma {:induction false} FoldsOn(t: Task, f: Frame, evs: seq<StreamResponse>)
    ensures FoldEvents(Some(t), f, false, evs) == Some(FoldedOn(t, evs))
  {
    if evs == [] {
      assert t.history + [] == t.history;
    } else {
      FoldsOn(t, f, evs[..|evs| - 1]);
      FoldedOnSnoc(t, f, evs);
    }
  }

  lemma UnchangedBy(t: Task, f: Frame, evs: seq<StreamResponse>)
    ensures FoldEvents(Some(t), f, false, evs) == Some(t)
       <==> && StatusMessages(evs) == [] && LastStatus(t.status, evs) == t.status
            && MergedInto(t.artifacts, Updates(evs)) == t.artifacts
  {
    FoldsOn(t, f, evs);
    assert |t.history + StatusMessages(evs)| == |t.history| + |StatusMessages(evs)|;
    assert t.history + [] == t.history;
  }

  lemma {:induction false} FoldInTwo(cur: Option<Task>, f: Frame, isTurn: bool, a: seq<StreamResponse>,
                                     b: seq<StreamResponse>)
    requires a != []
    ensures FoldEvents(cur, f, isTurn, a + b) == FoldEvents(FoldEvents(cur, f, isTurn, a), f, false, b)
  {
    if b == [] {
      assert a + b == a;
    } else {
      var n := |b| - 1;
      FoldInTwo(cur, f, isTurn, a, b[..n]);
      assert (a + b)[..|a + b| - 1] == a + b[..n];
    }
  }

  // ---- What a turn or a cancel makes of a record, in closed form ----

  lemma OneEvent(evt: StreamResponse)
    ensures StatusMessages([evt]) ==
              if evt.StatusUpdate? && evt.statusUpdate.status.message.Some?
              then [evt.statusUpdate.status.message.value] else []
    ensures Updates([evt]) == if evt.ArtifactUpdate? then [evt.artifactUpdate] else []
  {
    assert [evt][..0] == [];
  }

  lemma {:induction false} LastStatusOn(status: TaskStatus, a: seq<StreamResponse>, b: seq<StreamResponse>)
    ensures LastStatus(status, a + b) == LastStatus(LastStatus(status, a), b)
  {
    if b == [] {
      assert a + b == a;
    } else {
      var n := |b| - 1;
      assert (a + b)[..|a| + n] == a + b[..n];
      LastStatusOn(status, a, b[..n]);
    }
  }

  lemma {:induction false} MergedOn(artifacts: seq<Artifact>, a: seq<Update>, b: seq<Update>)
    ensures MergedInto(artifacts, a + b) == MergedInto(MergedInto(artifacts, a), b)
  {
    if b == [] {
      assert a + b == a;
    } else {
      var n := |b| - 1;
      assert (a + b)[..|a| + n] == a + b[..n];
      MergedOn(artifacts, a, b[..n]);
    }
  }

  /** What a record starts from: itself, or an empty task under the turn's ids, Working
      until a status says otherwise. */
  function StartsFrom(cur: Option<Task>, f: Frame): Task {
    cur.GetOr(Task(f.taskId, Some(f.contextId), TaskStatus(Working, None, Some(f.now)), [], [], None))
  }

  /** What some events, in a turn that records the message it was started with or in a
      cancel, make of it. */
  function RecordAfter(t: Task, seed: seq<Message>, evs: seq<StreamResponse>): Task {
    t.(status := LastStatus(t.status, evs),
       history := t.history + seed + StatusMessages(evs),
       artifacts := MergedInto(t.artifacts, Updates(evs)))
  }

  lemma FirstRecord(cur: Option<Task>, f: Frame, isTurn: bool, evt: StreamResponse)
    requires !evt.TaskObject? && if isTurn then !evt.BareMessage? else cur.Some?
    ensures Applied(cur, f, isTurn, evt)
         == Some(RecordAfter(StartsFrom(cur, f), if isTurn then [f.seed] else [], [evt]))
  {
    OneEvent(evt);
    var t, seed := StartsFrom(cur, f), if isTurn then [f.seed] else [];
    assert t.history + [] == t.history && [] + [f.seed] == [f.seed];
    assert t.history + seed + [] == t.history + seed;
    OneStatus(t.status, evt);
    OneMerge(t.artifacts, evt);
  }

  lemma OneStatus(status: TaskStatus, evt: StreamResponse)
    ensures LastStatus(status, [evt]) == if evt.StatusUpdate? then evt.statusUpdate.status else status
  {
    assert [evt][..0] == [];
  }

  lemma OneMerge(artifacts: seq<Artifact>, evt: StreamResponse)
    ensures MergedInto(artifacts, Updates([evt]))
         == if evt.ArtifactUpdate? then Merge(artifacts, evt.artifactUpdate) else artifacts
  {
    OneEvent(evt);
    if evt.ArtifactUpdate? {
      assert [evt.artifactUpdate][..0] == [];
    }
  }

  lemma RecordOn(t: Task, seed: seq<Message>, a: seq<StreamResponse>, b: seq<StreamResponse>)
    ensures FoldedOn(RecordAfter(t, seed, a), b) == RecordAfter(t, seed, a + b)
  {
    LastStatusOn(t.status, a, b);
    MessagesConcat(a, b);
    UpdatesConcat(a, b);
    MergedOn(t.artifacts, Updates(a), Updates(b));
    assert (t.history + seed + StatusMessages(a)) + StatusMessages(b)
        == t.history + seed + (StatusMessages(a) + StatusMessages(b));
  }

  /** The whole record, in closed form: ids and metadata are those of the task, or the
      turn's own; the status is the last one reported; the history goes on with the message
      that started the turn and the messages of the statuses; and the artifact updates are
      merged in. */
  lemma RecordMeaning(cur: Option<Task>, f: Frame, isTurn: bool, evs: seq<StreamResponse>)
    requires NoTaskObjects(evs) && if isTurn then TaskShaped(evs) else cur.Some?
    ensures FoldEvents(cur, f, isTurn, evs)
         == Some(RecordAfter(StartsFrom(cur, f), if isTurn then [f.seed] else [], evs))
  {
    if evs == [] {
      var h := cur.value.history;
      assert h + [] + [] == h;
    } else {
      var head, rest, seed := [evs[0]], evs[1..], if isTurn then [f.seed] else [];
      assert evs == head + rest && head[..0] == [];
      FoldInTwo(cur, f, isTurn, head, rest);
      FirstRecord(cur, f, isTurn, evs[0]);
      FoldsOn(RecordAfter(StartsFrom(cur, f), seed, head), f, rest);
      RecordOn(StartsFrom(cur, f), seed, head, rest);
    }
  }

  lemma {:induction false} UpdatesHaveParts(evs: seq<StreamResponse>)
    requires NoEmptyUpdates(evs)
    ensures forall u | u in Updates(evs) :: u.artifact.parts != []
  {
    if evs != [] {
      UpdatesHaveParts(evs[..|evs| - 1]);
      assert !IsEmptyArtifactUpdate(evs[|evs| - 1]);
    }
  }

  // ---- CancelTask ----

  function CanceledEvent(f: Frame, at: DateTime): StreamResponse {
    StatusUpdate(TaskStatusUpdateEvent(f.taskId, f.contextId, TaskStatus(Canceled, None, Some(at)), None))
  }

  /** The events a cancel applies: whatever the executor's `cancel` emitted, and a
      Canceled status if that did not leave the task terminal. */
  function CancelEvents(cur: Option<Task>, f: Frame, emitted: seq<StreamResponse>, at: DateTime): seq<StreamResponse> {
    var kept := Filter(emitted, Kept);
    if IsTerminalTask(FoldEvents(cur, f, false, kept)) then kept else kept + [CanceledEvent(f, at)]
  }

  lemma KeptSound(raw: seq<StreamResponse>)
    ensures NoEmptyUpdates(Filter(raw, Kept))
    ensures forall e | e in Filter(raw, Kept) :: e in raw
  {
    forall e | e in Filter(raw, Kept) ensures e in raw && !IsEmptyArtifactUpdate(e) {
      FilterSound(raw, Kept, e);
    }
  }

  /** Whatever a cancel override emits - nothing, only empty artifacts, or a return
      to Working after Completed - the record ends terminal, and its older history
      is kept as a prefix, extended only by the emitted status messages. */
  lemma CancelLandsTerminal(cur: Option<Task>, f: Frame, emitted: seq<StreamResponse>, at: DateTime)
    requires cur.Some?
    ensures var final := FoldEvents(cur, f, false, CancelEvents(cur, f, emitted, at));
            && IsTerminalTask(final)
            && final.value.history == cur.value.history + StatusMessages(Filter(emitted, Kept))
            && (var left := FoldEvents(cur, f, false, Filter(emitted, Kept));
                if IsTerminalTask(left) then final == left
                else
                  && final.value.status == TaskStatus(Canceled, None, Some(at))
                  && final.value.artifacts == ArtifactsOf(left))
            && (var last := LastStatus(cur.value.status, Filter(emitted, Kept));
                final.value.status
                == if last.state in {Completed, Failed, Canceled, Rejected} then last
                   else TaskStatus(Canceled, None, Some(at)))
    ensures NoEmptyUpdates(CancelEvents(cur, f, emitted, at))
    ensures StatusMessages(CancelEvents(cur, f, emitted, at)) == StatusMessages(Filter(emitted, Kept))
  {
    var kept, evs := Filter(emitted, Kept), CancelEvents(cur, f, emitted, at);
    KeptSound(emitted);
    CancelHistory(cur, f, evs);
    FoldsOn(cur.value, f, kept);
    if evs != kept {
      assert evs[..|kept|] == kept;
      LastStatusWins(cur, f, false, evs);
    }
  }

  // ---- Serial runs of one task ----

  /** One whole operation on the task, with everything the environment chose. */
  datatype Op =
    | TurnOp(frame: Frame, raw: seq<StreamResponse>, ending: Ending, stamp: Stamp)
    | CancelOp(frame: Frame, emitted: seq<StreamResponse>, overrideOk: bool, at: DateTime)

  predicate OpAccepted(cur: Option<Task>, op: Op) {
    match op
    case TurnOp(_, _, _, _) => !IsTerminalTask(cur)
    case CancelOp(_, _, overrideOk, _) => cur.Some? && !IsTerminalTask(cur) && overrideOk
  }

  function OpEvents(cur: Option<Task>, op: Op): seq<StreamResponse> {
    if !OpAccepted(cur, op) then []
    else
      match op
      case TurnOp(f, raw, ending, stamp) => TurnEvents(f, raw, ending, stamp)
      case CancelOp(f, emitted, _, at) => CancelEvents(cur, f, emitted, at)
  }

  function AfterOp(cur: Option<Task>, op: Op): Option<Task> {
    FoldEvents(cur, op.frame, op.TurnOp?, OpEvents(cur, op))
  }

  function AfterOps(cur: Option<Task>, ops: seq<Op>): Option<Task> {
    if ops == [] then cur else AfterOp(AfterOps(cur, ops[..|ops| - 1]), ops[|ops| - 1])
  }

  /** Executors only speak through the sink, which never carries task objects. */
  predicate SinkOp(op: Op) {
    match op
    case TurnOp(_, raw, _, _) => NoTaskObjects(raw)
    case CancelOp(_, emitted, _, _) => NoTaskObjects(emitted)
  }

  function OpContribution(cur: Option<Task>, op: Op): seq<Message> {
    if !OpAccepted(cur, op) then []
    else if op.TurnOp? then TurnContribution(op.frame, OpEvents(cur, op))
    else StatusMessages(Filter(op.emitted, Kept))
  }

  function Contributions(cur: Option<Task>, ops: seq<Op>): seq<seq<Message>> {
    if ops == [] then []
    else
      var n := |ops| - 1;
      Contributions(cur, ops[..n]) + [OpContribution(AfterOps(cur, ops[..n]), ops[n])]
  }

  lemma OpHistory(cur: Option<Task>, op: Op)
    requires SinkOp(op)
    ensures HistoryOf(AfterOp(cur, op)) == HistoryOf(cur) + OpContribution(cur, op)
  {
    if OpAccepted(cur, op) {
      match op
      case TurnOp(f, raw, ending, stamp) =>
        TurnEventsShape(f, raw, ending, stamp);
        TurnHistory(cur, f, OpEvents(cur, op));
      case CancelOp(f, emitted, _, at) =>
        CancelLandsTerminal(cur, f, emitted, at);
    }
  }

  /** Conservation of history: nothing already recorded is ever lost or reordered,
      and what is recorded is, operation by operation, the seed message of each
      task-shaped turn followed by that turn's status messages, and the status
      messages of each cancel. */
  lemma {:induction false} HistoryConservation(cur: Option<Task>, ops: seq<Op>)
    requires forall i | 0 <= i < |ops| :: SinkOp(ops[i])
    ensures HistoryOf(AfterOps(cur, ops)) == HistoryOf(cur) + Flatten(Contributions(cur, ops))
  {
    if ops != [] {
      var n := |ops| - 1;
      HistoryConservation(cur, ops[..n]);
      var before, parts := AfterOps(cur, ops[..n]), Contributions(cur, ops[..n]);
      OpHistory(before, ops[n]);
      AppendFlattened(HistoryOf(cur), HistoryOf(before), parts, OpContribution(before, ops[n]));
    }
  }

  /** Once terminal, no later operation changes the record. */
  lemma {:induction false} TerminalAbsorbs(cur: Option<Task>, ops: seq<Op>)
    requires IsTerminalTask(cur)
    ensures AfterOps(cur, ops) == cur
  {
    if ops != [] {
      TerminalAbsorbs(cur, ops[..|ops| - 1]);
    }
  }

  function RunEvents(cur: Option<Task>, ops: seq<Op>): seq<StreamResponse> {
    if ops == [] then []
    else
      var n := |ops| - 1;
      RunEvents(cur, ops[..n]) + OpEvents(AfterOps(cur, ops[..n]), ops[n])
  }

  lemma {:induction false} UpdatesConcat(a: seq<StreamResponse>, b: seq<StreamResponse>)
    ensures Updates(a + b) == Updates(a) + Updates(b)
  {
    if b == [] {
      assert a + b == a;
    } else {
      var n := |b| - 1;
      assert (a + b)[..|a| + n] == a + b[..n];
      UpdatesConcat(a, b[..n]);
    }
  }

  lemma {:induction false} RunNoEmptyUpdates(cur: Option<Task>, ops: seq<Op>)
    ensures NoEmptyUpdates(RunEvents(cur, ops))
  {
    if ops != [] {
      var n := |ops| - 1;
      RunNoEmptyUpdates(cur, ops[..n]);
      var before, op := AfterOps(cur, ops[..n]), ops[n];
      if OpAccepted(before, op) {
        match op
        case TurnOp(f, raw, ending, stamp) =>
          ProcessedSound(raw);
        case CancelOp(f, emitted, _, at) =>
          CancelLandsTerminal(before, f, emitted, at);
      }
    }
  }

  lemma {:induction false} RunMerges(ops: seq<Op>)
    ensures ArtifactsOf(AfterOps(None, ops)) == MergeAll(Updates(RunEvents(None, ops)))
  {
    if ops != [] {
      var n := |ops| - 1;
      RunMerges(ops[..n]);
      var before, op := AfterOps(None, ops[..n]), ops[n];
      var us := Updates(RunEvents(None, ops[..n]));
      FoldArtifacts(before, op.frame, op.TurnOp?, OpEvents(before, op), us);
      UpdatesConcat(RunEvents(None, ops[..n]), OpEvents(before, op));
    }
  }

  /** Over a task's whole life, its artifacts are what its update sequence declares:
      one per surviving version, in opening order, each with the parts of every
      update since that version opened; distinct ids; never without parts. */
  lemma ArtifactMeaning(ops: seq<Op>)
    ensures var us := Updates(RunEvents(None, ops));
            && ArtifactsOf(AfterOps(None, ops)) == Declared(us)
            && DistinctIds(Declared(us))
            && (forall a | a in Declared(us) :: a.parts != [])
  {
    var us := Updates(RunEvents(None, ops));
    RunMerges(ops);
    MergeAllIsDeclared(us);
    RunNoEmptyUpdates(None, ops);
    UpdatesHaveParts(RunEvents(None, ops));
    MergeAllWellFormed(us);
  }

  // ---- Server messages carry their ids ----

  predicate CarriesIds(m: Message) {
    m.contextId.Some? && m.taskId.Some?
  }

  predicate StampedEvent(evt: StreamResponse) {
    evt.StatusUpdate? && evt.statusUpdate.status.message.Some? ==> CarriesIds(evt.statusUpdate.status.message.value)
  }

  predicate StampedEvents(evs: seq<StreamResponse>) {
    forall i | 0 <= i < |evs| :: StampedEvent(evs[i])
  }

  predicate StampedOp(op: Op) {
    match op
    case TurnOp(_, raw, _, _) => StampedEvents(raw)
    case CancelOp(_, emitted, _, _) => StampedEvents(emitted)
  }

  lemma {:induction false} StampedMessages(evs: seq<StreamResponse>)
    requires StampedEvents(evs)
    ensures forall m | m in StatusMessages(evs) :: CarriesIds(m)
  {
    if evs != [] {
      StampedMessages(evs[..|evs| - 1]);
      assert StampedEvent(evs[|evs| - 1]);
    }
  }

  lemma OpContributionStamped(cur: Option<Task>, op: Op)
    requires StampedOp(op)
    ensures forall m | m in OpContribution(cur, op) :: CarriesIds(m) || (op.TurnOp? && m == op.frame.seed)
  {
    if OpAccepted(cur, op) {
      match op
      case TurnOp(f, raw, ending, stamp) =>
        ProcessedSound(raw);
        var evs := OpEvents(cur, op);
        forall i | 0 <= i < |evs| ensures StampedEvent(evs[i]) {
          if i < |Processed(raw)| {
            assert evs[i] == Processed(raw)[i];
          }
        }
        StampedMessages(evs);
      case CancelOp(f, emitted, _, at) =>
        KeptSound(emitted);
        var kept := Filter(emitted, Kept);
        forall i | 0 <= i < |kept| ensures StampedEvent(kept[i]) {
          assert kept[i] in kept;
        }
        StampedMessages(kept);
    }
  }

  /** Everything a run records, other than the clients' own messages, carries both a
      context id and a task id (A2A specification, section 4.1.4). */
  lemma {:induction false} RecordedMessagesCarryIds(ops: seq<Op>, m: Message)
    requires forall i | 0 <= i < |ops| :: SinkOp(ops[i]) && StampedOp(ops[i])
    requires m in HistoryOf(AfterOps(None, ops))
    ensures CarriesIds(m) || exists op | op in ops :: op.TurnOp? && m == op.frame.seed
  {
    if ops != [] {
      var n := |ops| - 1;
      var before := AfterOps(None, ops[..n]);
      OpHistory(before, ops[n]);
      if m in HistoryOf(before) {
        RecordedMessagesCarryIds(ops[..n], m);
        if !CarriesIds(m) {
          var op :| op in ops[..n] && op.TurnOp? && m == op.frame.seed;
          assert op in ops;
        }
      } else {
        OpContributionStamped(before, ops[n]);
        assert ops[n] in ops;
      }
    }
  }
}
