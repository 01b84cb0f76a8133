/** The websocket handler `chat` (app/api/chat.py:92-172): for each user message it
    builds the team, loads the history and forwards what the team's stream yields,
    persisting state and history after every frame it sends; errors become an error
    frame followed by an input request. */
module Streaming {
  import opened Wrappers
  import opened Messages
  import opened Persistence

  /** What `team.run_stream` yields: messages and events, then a final TaskResult. */
  datatype StreamItem = TaskResult | Event(m: Message)

  /** One frame the outer loop receives with `websocket.receive_json()` (lines 105-106):
      a valid TextMessage, or data for which `TextMessage.model_validate` raises. The
      frames the user proxy reads during a turn (lines 97-100) belong to that turn's `Run`. */
  datatype Inbound = Request(text: Message) | Malformed(error: string)

  /** How the team behaves for one request: the items its stream yields, whether the
      stream (the team's selector, or the user proxy's validation of a reply, inside it)
      then raises, and what `team.save_state()` returns after the n-th forwarded frame
      (a `Failure` is an exception it raises). */
  datatype Run = Run(items: seq<StreamItem>, raised: Option<string>, snapshot: (Team, nat) -> Result<State>)

  /** One request with the team's behaviour for it. */
  datatype Exchange = Exchange(inbound: Inbound, run: Run)

  /** The message a ToolCallRequestEvent is replaced by (lines 118-122). */
  const Placeholder: Message := Message(TextMessage, AssistantAgentName, "Conducting web search...")

  /** The two frames the inner `except` sends (lines 146-159). */
  function ErrorFrames(error: string): (fs: seq<Frame>)
    ensures |fs| == 2 && fs[0].typ == "error" && fs[1].typ == TypeName(UserInputRequestedEvent)
  {
    [Frame("error", "system", "Error: " + error),
     Frame("UserInputRequestedEvent", "system", "An error occurred. Please try again.")]
  }

  /** The frame the outer `except` sends before the handler gives up (lines 163-170). */
  function UnexpectedErrorFrame(error: string): (f: Frame)
    ensures f.typ == "error" && f.source == "system"
  {
    Frame("error", "system", "Unexpected error: " + error)
  }

  /** What one stream item becomes on the wire (lines 116-125): TaskResult and
      ToolCallExecutionEvent are dropped, a ToolCallRequestEvent is replaced by the
      placeholder, everything else goes out as it is. */
  function Forward(item: StreamItem): (r: Option<Message>)
    ensures r == None <==> item.TaskResult? || item.m.kind == ToolCallExecutionEvent
    ensures item.Event? && item.m.kind == ToolCallRequestEvent ==> r == Some(Placeholder)
    ensures item.Event? && item.m.kind != ToolCallRequestEvent && item.m.kind != ToolCallExecutionEvent
            ==> r == Some(item.m)
  {
    match item
    case TaskResult => None
    case Event(m) =>
      var msg := if m.kind == ToolCallRequestEvent then Placeholder else m;
      if msg.kind == ToolCallExecutionEvent then None else Some(msg)
  }

  function OptionSeq(o: Option<Message>): seq<Message>
  {
    if o.Some? then [o.value] else []
  }

  /** The messages sent for a sequence of stream items, in stream order. */
  function Sent(items: seq<StreamItem>): (ms: seq<Message>)
    ensures |ms| <= |items|
  {
    if items == [] then [] else OptionSeq(Forward(items[0])) + Sent(items[1..])
  }

  /** The sent messages that go into the history: all but UserInputRequestedEvent. */
  function Recorded(ms: seq<Message>): (rs: seq<Message>)
    ensures |rs| <= |ms|
  {
    if ms == [] then []
    else (if ms[0].kind == UserInputRequestedEvent then [] else [ms[0]]) + Recorded(ms[1..])
  }

  /** The index of the first frame whose `save_state()` raises, or `n` if none of the
      first `n` does. */
  function FirstFailure(snapshot: (Team, nat) -> Result<State>, team: Team, n: nat): (k: nat)
    ensures k <= n
    ensures forall j :: 0 <= j < k ==> snapshot(team, j).Success?
    ensures k < n ==> snapshot(team, k).Failure?
  {
    if n == 0 then 0
    else
      var k := FirstFailure(snapshot, team, n - 1);
      if k < n - 1 then k
      else if snapshot(team, n - 1).Failure? then n - 1
      else n
  }

  /** The frames sent, the files left on disk and the number of completed saves. */
  datatype Effect = Effect(frames: seq<Frame>, disk: Disk, saves: nat)

  /** The handler's own state part-way through a stream: the frames sent so far, its
      in-memory `history` list, both files, the completed saves, and whether an exception
      has ended the stream. */
  datatype Progress = Progress(frames: seq<Frame>, history: seq<Frame>, disk: Disk, saves: nat, failed: bool)

  /** What the loop body (lines 116-144) does with one stream item. The n-th sent frame
      is saved with the state `snapshot(team, n)`; a failing `save_state()` leaves the
      state file emptied and sends the error frames. */
  function Step(p: Progress, item: StreamItem, run: Run, team: Team): (r: Progress)
    ensures p.failed || Forward(item).None? ==> r == p
    ensures p.saves <= r.saves <= p.saves + 1
    ensures r.saves == p.saves ==> r.disk.history == p.disk.history
  {
    if p.failed then p
    else
      match Forward(item)
      case None => p
      case Some(m) =>
        var history := p.history + Dumps(Recorded([m]));
        match run.snapshot(team, p.saves)
        case Failure(e) =>
          Progress(p.frames + [Dump(m)] + ErrorFrames(e), history, Disk(p.disk.history, Some(Truncated)), p.saves, true)
        case Success(st) =>
          Progress(p.frames + [Dump(m)], history, Disk(Some(Parsed(history)), Some(Parsed(st))), p.saves + 1, false)
  }

  /** The loop body applied to each item of `items` in order, starting from `p`. */
  function Replay(p: Progress, items: seq<StreamItem>, run: Run, team: Team): Progress
  {
    if items == [] then p
    else Step(Replay(p, items[..|items| - 1], run, team), items[|items| - 1], run, team)
  }

  /** The stream part of a turn (lines 114-159) once the team and the history `h0`
      are loaded; an exception from the stream itself adds the error frames. */
  function StreamEffect(d: Disk, run: Run, team: Team, h0: seq<Frame>): (e: Effect)
    ensures e.saves <= |Sent(run.items)|
    ensures e.saves == 0 ==> e.disk.history == d.history
  {
    ReplayClosedForm(d, run, team, h0, run.items);
    ClosedSaves(d, run, team, h0, Sent(run.items));
    var p := Replay(Progress([], h0, d, 0, false), run.items, run, team);
    Effect(p.frames + (if !p.failed && run.raised.Some? then ErrorFrames(run.raised.value) else []), p.disk, p.saves)
  }

  /** One iteration of the outer loop for a valid request (lines 109-159). */
  function TurnEffect(d: Disk, run: Run): (e: Effect)
    ensures e.saves <= |Sent(run.items)|
    ensures e.saves == 0 ==> e.disk.history == d.history
  {
    match LoadTeam(d)
    case Failure(e) => Effect(ErrorFrames(e), d, 0)
    case Success(team) =>
      match LoadHistory(d)
      case Failure(e) => Effect(ErrorFrames(e), d, 0)
      case Success(h0) => StreamEffect(d, run, team, h0)
  }

  /** The whole connection: requests are served in order until a malformed one ends the
      handler. */
  function ServeEffect(d: Disk, exchanges: seq<Exchange>): (e: Effect)
    ensures e.saves == 0 ==> e.disk.history == d.history
    decreases exchanges
  {
    if exchanges == [] then Effect([], d, 0)
    else
      match exchanges[0].inbound
      case Malformed(e) => Effect([UnexpectedErrorFrame(e)], d, 0)
      case Request(_) =>
        var first := TurnEffect(d, exchanges[0].run);
        Then(first, ServeEffect(first.disk, exchanges[1..]))
  }

  lemma FramesAssociate(a: seq<Frame>, b: seq<Frame>, c: seq<Frame>)
    ensures a + b + c == a + (b + c)
  {
  }

  /** The effect of `first` followed by the effect of `rest`. */
  function Then(first: Effect, rest: Effect): (e: Effect)
    ensures |e.frames| == |first.frames| + |rest.frames|
  {
    Effect(first.frames + rest.frames, rest.disk, first.saves + rest.saves)
  }

  lemma ThenAssociates(a: Effect, b: Effect, c: Effect)
    ensures Then(Then(a, b), c) == Then(a, Then(b, c))
  {
    assert (a.frames + b.frames) + c.frames == a.frames + (b.frames + c.frames);
  }

  /** One exchange of the serving loop, read off the definition at position `i`. */
  lemma ServeUnfold(d: Disk, exchanges: seq<Exchange>, i: nat)
    requires i < |exchanges|
    ensures exchanges[i].inbound.Malformed? ==>
      ServeEffect(d, exchanges[i..]) == Effect([UnexpectedErrorFrame(exchanges[i].inbound.error)], d, 0)
    ensures exchanges[i].inbound.Request? ==>
      ServeEffect(d, exchanges[i..]) ==
        Then(TurnEffect(d, exchanges[i].run), ServeEffect(TurnEffect(d, exchanges[i].run).disk, exchanges[i + 1..]))
  {
    assert exchanges[i..][0] == exchanges[i];
    assert exchanges[i..][1..] == exchanges[i + 1..];
  }

  // ---------------------------------------------------------------------------
  // Properties of the forwarding rules

  /** Forwarding distributes over concatenation of streams. */
  lemma {:induction false} SentAppend(a: seq<StreamItem>, b: seq<StreamItem>)
    ensures Sent(a + b) == Sent(a) + Sent(b)
  {
    if a == [] {
      assert a + b == b;
    } else {
      assert (a + b)[0] == a[0];
      assert (a + b)[1..] == a[1..] + b;
      SentAppend(a[1..], b);
    }
  }

  /** Nothing sent is a ToolCallExecutionEvent or a ToolCallRequestEvent, and the sent
      messages are the forwarded items in stream order: item i, if forwarded, is sent
      right after the messages of items 0..i-1. */
  lemma {:induction false} SentInOrder(items: seq<StreamItem>, i: nat)
    requires i < |items|
    ensures Forward(items[i]).Some? ==>
              |Sent(items[..i])| < |Sent(items)| && Sent(items)[|Sent(items[..i])|] == Forward(items[i]).value
    ensures Forward(items[i]).None? ==> Sent(items[..i + 1]) == Sent(items[..i])
  {
    assert items == items[..i] + [items[i]] + items[i + 1..];
    assert items[..i + 1] == items[..i] + [items[i]];
    SentAppend(items[..i] + [items[i]], items[i + 1..]);
    SentAppend(items[..i], [items[i]]);
    assert Sent([items[i]]) == OptionSeq(Forward(items[i])) + Sent([]);
  }

  /** No sent message is a dropped kind. */
  lemma {:induction false} SentKinds(items: seq<StreamItem>)
    ensures forall j :: 0 <= j < |Sent(items)| ==>
              Sent(items)[j].kind != ToolCallExecutionEvent && Sent(items)[j].kind != ToolCallRequestEvent
  {
    if items != [] {
      SentKinds(items[1..]);
    }
  }

  /** A stream of TaskResults and ToolCallExecutionEvents sends nothing. */
  lemma {:induction false} DroppedSendNothing(items: seq<StreamItem>)
    requires forall j :: 0 <= j < |items| ==> items[j].TaskResult? || items[j].m.kind == ToolCallExecutionEvent
    ensures Sent(items) == []
  {
    if items != [] {
      DroppedSendNothing(items[1..]);
    }
  }

  /** A tool call request by either responder is sent as the AssistantAgent placeholder. */
  lemma ToolCallRequestIsPlaceholder(m: Message)
    requires m.kind == ToolCallRequestEvent
    ensures Sent([Event(m)]) == [Placeholder]
    ensures Dumps(Sent([Event(m)])) == [Frame("TextMessage", "AssistantAgent", "Conducting web search...")]
  {
    assert Sent([Event(m)]) == OptionSeq(Forward(Event(m))) + Sent([]);
  }

  lemma {:induction false} RecordedAppend(a: seq<Message>, b: seq<Message>)
    ensures Recorded(a + b) == Recorded(a) + Recorded(b)
  {
    if a == [] {
      assert a + b == b;
    } else {
      assert (a + b)[0] == a[0];
      assert (a + b)[1..] == a[1..] + b;
      RecordedAppend(a[1..], b);
    }
  }

  /** The history keeps exactly the sent messages that are not input requests, in order. */
  lemma {:induction false} RecordedIsFilter(ms: seq<Message>)
    ensures forall x :: x in Recorded(ms) <==> x in ms && x.kind != UserInputRequestedEvent
    ensures |Recorded(ms)| == |ms| ==> Recorded(ms) == ms
  {
    if ms != [] {
      RecordedIsFilter(ms[1..]);
      assert ms == [ms[0]] + ms[1..];
    }
  }

  // ---------------------------------------------------------------------------
  // Properties of a turn

  /** A turn whose team or history cannot be loaded sends exactly the two error frames
      and leaves both files as they were. */
  lemma LoadFailureSendsErrorPair(d: Disk, run: Run)
    requires LoadTeam(d).Failure? || LoadHistory(d).Failure?
    ensures TurnEffect(d, run).disk == d && TurnEffect(d, run).saves == 0
    ensures exists e :: TurnEffect(d, run).frames == ErrorFrames(e)
  {
  }

  /** Without a failing save, a turn sends every forwarded message, saves once per sent
      frame (input requests included), and leaves the history file holding the old
      history followed by the sent non-input-request messages; an exception from the
      stream adds exactly the two error frames and changes no file. */
  lemma TurnSavesOncePerFrame(d: Disk, run: Run, team: Team, h0: seq<Frame>)
    requires LoadTeam(d) == Success(team) && LoadHistory(d) == Success(h0)
    requires forall j :: 0 <= j < |Sent(run.items)| ==> run.snapshot(team, j).Success?
    ensures TurnEffect(d, run).saves == |Sent(run.items)|
    ensures TurnEffect(d, run).frames
            == Dumps(Sent(run.items)) + (if run.raised.Some? then ErrorFrames(run.raised.value) else [])
    ensures Sent(run.items) != [] ==>
              TurnEffect(d, run).disk.history == Some(Parsed(h0 + Dumps(Recorded(Sent(run.items)))))
    ensures Sent(run.items) == [] ==> TurnEffect(d, run).disk == d
    ensures TurnEffect(d, run).disk == TurnEffect(d, run.(raised := None)).disk
  {
    ReplayClosedForm(d, run, team, h0, run.items);
    ReplayClosedForm(d, run.(raised := None), team, h0, run.items);
    assert FirstFailure(run.snapshot, team, |Sent(run.items)|) == |Sent(run.items)|;
  }

  /** When the save after frame k raises, the turn stops there: frames 0..k went out,
      then the error pair; the history file keeps what the k-th earlier save wrote; the
      state file is left empty, so the next `get_team` raises. */
  lemma TurnStopsAtFailedSave(d: Disk, run: Run, team: Team, h0: seq<Frame>, k: nat)
    requires LoadTeam(d) == Success(team) && LoadHistory(d) == Success(h0)
    requires k < |Sent(run.items)|
    requires forall j :: 0 <= j < k ==> run.snapshot(team, j).Success?
    requires run.snapshot(team, k).Failure?
    ensures TurnEffect(d, run).frames
            == Dumps(Sent(run.items)[..k + 1]) + ErrorFrames(run.snapshot(team, k).error)
    ensures TurnEffect(d, run).disk.history == HistoryFile(d, h0, Sent(run.items)[..k])
    ensures TurnEffect(d, run).disk.state == Some(Truncated)
    ensures LoadTeam(TurnEffect(d, run).disk).Failure?
    ensures TurnEffect(d, run).saves == k
  {
    StreamStopsAtFailedSave(d, run, team, h0, k);
  }

  /** The stream part of `TurnStopsAtFailedSave`. */
  lemma StreamStopsAtFailedSave(d: Disk, run: Run, team: Team, h0: seq<Frame>, k: nat)
    requires k < |Sent(run.items)|
    requires forall j :: 0 <= j < k ==> run.snapshot(team, j).Success?
    requires run.snapshot(team, k).Failure?
    ensures StreamEffect(d, run, team, h0)
            == Effect(Dumps(Sent(run.items)[..k + 1]) + ErrorFrames(run.snapshot(team, k).error),
                      Disk(HistoryFile(d, h0, Sent(run.items)[..k]), Some(Truncated)), k)
  {
    ReplayClosedForm(d, run, team, h0, run.items);
    FirstFailureAt(run.snapshot, team, |Sent(run.items)|, k);
  }

  /** The first failing save is the one at `k` when every earlier one succeeds. */
  lemma FirstFailureAt(snapshot: (Team, nat) -> Result<State>, team: Team, n: nat, k: nat)
    requires k < n && snapshot(team, k).Failure?
    requires forall j :: 0 <= j < k ==> snapshot(team, j).Success?
    ensures FirstFailure(snapshot, team, n) == k
  {
  }

  /** How one more stream item extends what was sent. */
  lemma SentStep(items: seq<StreamItem>, i: nat)
    requires i < |items|
    ensures Sent(items[..i + 1]) == Sent(items[..i]) + OptionSeq(Forward(items[i]))
  {
    SentAppend(items[..i], [items[i]]);
    assert items[..i + 1] == items[..i] + [items[i]];
    assert Sent([items[i]]) == OptionSeq(Forward(items[i])) + Sent([]);
  }

  /** The history list after one more sent message. */
  lemma HistoryStep(h0: seq<Frame>, before: seq<Message>, m: Message)
    ensures h0 + Dumps(Recorded(before + [m])) == h0 + Dumps(Recorded(before)) + Dumps(Recorded([m]))
  {
    RecordedAppend(before, [m]);
    DumpsAppend(Recorded(before), Recorded([m]));
  }

  /** The history file once the messages `ms` have been sent and saved. */
  function HistoryFile(d: Disk, h0: seq<Frame>, ms: seq<Message>): Option<Stored<seq<Frame>>>
  {
    if ms == [] then d.history else Some(Parsed(h0 + Dumps(Recorded(ms))))
  }

  /** The closed form of what the forwarding loop has done once it has sent the
      messages `m`: with `k` the first frame whose save raised, the frames are exactly
      the dumps of `m` (cut after frame k, then the error pair), the history list is `h0`
      followed by the sent messages that are not input requests, the history file holds
      the list as of the last completed save, and there is one save per frame sent. */
  function Closed(d: Disk, run: Run, team: Team, h0: seq<Frame>, m: seq<Message>): Progress
  {
    var k := FirstFailure(run.snapshot, team, |m|);
    if k < |m| then
      Progress(Dumps(m[..k + 1]) + ErrorFrames(run.snapshot(team, k).error),
               h0 + Dumps(Recorded(m[..k + 1])),
               Disk(HistoryFile(d, h0, m[..k]), Some(Truncated)), k, true)
    else
      Progress(Dumps(m), h0 + Dumps(Recorded(m)),
               if m == [] then d else Disk(HistoryFile(d, h0, m), Some(Parsed(run.snapshot(team, |m| - 1).value))),
               |m|, false)
  }

  /** At most one save per sent message, and the history file changes only with a
      completed save. */
  lemma ClosedSaves(d: Disk, run: Run, team: Team, h0: seq<Frame>, m: seq<Message>)
    ensures Closed(d, run, team, h0, m).saves <= |m|
    ensures Closed(d, run, team, h0, m).saves == 0 ==> Closed(d, run, team, h0, m).disk.history == d.history
  {
    var k := FirstFailure(run.snapshot, team, |m|);
    if k < |m| {
      assert Closed(d, run, team, h0, m).saves == k;
      if k == 0 {
        assert m[..k] == [];
      }
    }
  }

  /** An item that sends nothing leaves the closed form where it was. */
  lemma ClosedStepSilent(d: Disk, run: Run, team: Team, h0: seq<Frame>, m: seq<Message>, x: StreamItem)
    requires Forward(x).None?
    ensures Step(Closed(d, run, team, h0, m), x, run, team) == Closed(d, run, team, h0, m)
  {
  }

  /** After a failed save nothing more is sent, whatever the stream yields. */
  lemma ClosedStepAfterFailure(d: Disk, run: Run, team: Team, h0: seq<Frame>, m: seq<Message>, v: Message)
    requires FirstFailure(run.snapshot, team, |m|) < |m|
    ensures Closed(d, run, team, h0, m + [v]) == Closed(d, run, team, h0, m)
  {
    var k := FirstFailure(run.snapshot, team, |m|);
    var m1 := m + [v];
    assert FirstFailure(run.snapshot, team, |m1|) == k;
    assert m1[..k + 1] == m[..k + 1];
    assert m1[..k] == m[..k];
    assert Closed(d, run, team, h0, m1)
           == Progress(Dumps(m[..k + 1]) + ErrorFrames(run.snapshot(team, k).error),
                       h0 + Dumps(Recorded(m[..k + 1])),
                       Disk(HistoryFile(d, h0, m[..k]), Some(Truncated)), k, true);
  }

  /** The frames and history list after one more sent message. */
  lemma SendExtends(h0: seq<Frame>, m: seq<Message>, v: Message)
    ensures Dumps(m + [v]) == Dumps(m) + [Dump(v)]
    ensures h0 + Dumps(Recorded(m + [v])) == h0 + Dumps(Recorded(m)) + Dumps(Recorded([v]))
  {
    DumpsAppend(m, [v]);
    assert Dumps([v]) == [Dump(v)] + Dumps([]);
    RecordedAppend(m, [v]);
    DumpsAppend(Recorded(m), Recorded([v]));
  }

  /** Sending one more message while every earlier save succeeded, when its save raises. */
  lemma ClosedSendFails(d: Disk, run: Run, team: Team, h0: seq<Frame>, m: seq<Message>, v: Message)
    requires FirstFailure(run.snapshot, team, |m|) == |m|
    requires run.snapshot(team, |m|).Failure?
    ensures var p := Closed(d, run, team, h0, m);
            Closed(d, run, team, h0, m + [v])
            == Progress(p.frames + [Dump(v)] + ErrorFrames(run.snapshot(team, |m|).error),
                        p.history + Dumps(Recorded([v])), Disk(p.disk.history, Some(Truncated)), |m|, true)
  {
    var m1 := m + [v];
    var e := run.snapshot(team, |m|).error;
    assert FirstFailure(run.snapshot, team, |m1|) == |m|;
    assert m1[..|m| + 1] == m1;
    assert m1[..|m|] == m;
    assert Closed(d, run, team, h0, m1)
           == Progress(Dumps(m1) + ErrorFrames(e), h0 + Dumps(Recorded(m1)),
                       Disk(HistoryFile(d, h0, m), Some(Truncated)), |m|, true);
    assert Closed(d, run, team, h0, m).disk.history == HistoryFile(d, h0, m);
    SendExtends(h0, m, v);
  }

  /** Sending one more message while every earlier save succeeded, when its save succeeds. */
  lemma ClosedSendSaves(d: Disk, run: Run, team: Team, h0: seq<Frame>, m: seq<Message>, v: Message)
    requires FirstFailure(run.snapshot, team, |m|) == |m|
    requires run.snapshot(team, |m|).Success?
    ensures var p := Closed(d, run, team, h0, m);
            var history := p.history + Dumps(Recorded([v]));
            Closed(d, run, team, h0, m + [v])
            == Progress(p.frames + [Dump(v)], history,
                        Disk(Some(Parsed(history)), Some(Parsed(run.snapshot(team, |m|).value))), |m| + 1, false)
  {
    var m1 := m + [v];
    assert FirstFailure(run.snapshot, team, |m1|) == |m1|;
    assert m1[|m1| - 1] == v;
    SendExtends(h0, m, v);
  }

  /** The loop body moves the closed form along by the item's forwarded message. */
  lemma ClosedStep(d: Disk, run: Run, team: Team, h0: seq<Frame>, m: seq<Message>, x: StreamItem)
    ensures Step(Closed(d, run, team, h0, m), x, run, team) == Closed(d, run, team, h0, m + OptionSeq(Forward(x)))
  {
    if Forward(x).None? {
      ClosedStepSilent(d, run, team, h0, m, x);
      assert m + OptionSeq(Forward(x)) == m;
    } else if FirstFailure(run.snapshot, team, |m|) < |m| {
      ClosedStepAfterFailure(d, run, team, h0, m, Forward(x).value);
    } else if run.snapshot(team, |m|).Failure? {
      ClosedSendFails(d, run, team, h0, m, Forward(x).value);
    } else {
      ClosedSendSaves(d, run, team, h0, m, Forward(x).value);
    }
  }

  /** Replaying the loop body over `items` gives the closed form of the messages sent. */
  lemma {:induction false} ReplayClosedForm(d: Disk, run: Run, team: Team, h0: seq<Frame>, items: seq<StreamItem>)
    ensures Replay(Progress([], h0, d, 0, false), items, run, team) == Closed(d, run, team, h0, Sent(items))
  {
    if items != [] {
      var init := items[..|items| - 1];
      var x := items[|items| - 1];
      ReplayClosedForm(d, run, team, h0, init);
      LastSplit(items);
      SentAppend(init, [x]);
      assert Sent([x]) == OptionSeq(Forward(x)) + Sent([]);
      ClosedStep(d, run, team, h0, Sent(init), x);
      assert Sent(items) == Sent(init) + OptionSeq(Forward(x));
      assert Replay(Progress([], h0, d, 0, false), items, run, team)
             == Step(Replay(Progress([], h0, d, 0, false), init, run, team), x, run, team);
    }
  }

  /** Once an exception has ended the stream, later items change nothing. */
  lemma {:induction false} ReplayAfterFailure(p: Progress, items: seq<StreamItem>, i: nat, run: Run, team: Team)
    requires i <= |items|
    requires Replay(p, items[..i], run, team).failed
    ensures Replay(p, items, run, team) == Replay(p, items[..i], run, team)
    decreases |items| - i
  {
    if i < |items| {
      assert items[..i + 1][..i] == items[..i];
      ReplayAfterFailure(p, items, i + 1, run, team);
    } else {
      assert items[..i] == items;
    }
  }

  /** Once a failed save has left the state file empty, every later request of the
      connection gets only the error pair (or the malformed request its "Unexpected
      error" frame): nothing is saved and no file changes again. */
  lemma {:induction false} EmptiedStateStaysBroken(d: Disk, exchanges: seq<Exchange>)
    requires d.state == Some(Truncated)
    ensures ServeEffect(d, exchanges).disk == d && ServeEffect(d, exchanges).saves == 0
    ensures forall j :: 0 <= j < |ServeEffect(d, exchanges).frames| ==> ServeEffect(d, exchanges).frames[j].source == "system"
    decreases exchanges
  {
    if exchanges != [] && exchanges[0].inbound.Request? {
      var first := TurnEffect(d, exchanges[0].run);
      assert first == Effect(ErrorFrames(EmptyJsonError), d, 0);
      EmptiedStateStaysBroken(d, exchanges[1..]);
    }
  }

  // ---------------------------------------------------------------------------
  // The handler

  class ChatSession {
    /** The history and state files. */
    const store: Store
    /** Every frame sent on the websocket, in order. */
    var outbox: seq<Frame>
    /** The number of completed state-and-history saves. */
    var saveCount: nat

    constructor (store: Store)
      ensures this.store == store && outbox == [] && saveCount == 0
    {
      this.store := store;
      outbox := [];
      saveCount := 0;
    }

    /** The inner `try` (lines 109-159) for one valid request. */
    method HandleTurn(run: Run)
      modifies this, store
      ensures outbox == old(outbox) + TurnEffect(old(store.Contents()), run).frames
      ensures store.Contents() == TurnEffect(old(store.Contents()), run).disk
      ensures saveCount == old(saveCount) + TurnEffect(old(store.Contents()), run).saves
    {
      var team := store.GetTeam();
      if team.Failure? {
        outbox := outbox + ErrorFrames(team.error);
        return;
      }
      var loaded := store.GetHistory();
      if loaded.Failure? {
        outbox := outbox + ErrorFrames(loaded.error);
        return;
      }
      ForwardStream(run, team.value, loaded.value);
    }

    /** The `async for` over the team's stream (lines 114-159), then the error pair
        when the stream itself raises. */
    method ForwardStream(run: Run, team: Team, h0: seq<Frame>)
      modifies this, store
      ensures outbox == old(outbox) + StreamEffect(old(store.Contents()), run, team, h0).frames
      ensures store.Contents() == StreamEffect(old(store.Contents()), run, team, h0).disk
      ensures saveCount == old(saveCount) + StreamEffect(old(store.Contents()), run, team, h0).saves
    {
      var failed, p := ForwardItems(run, team, h0);
      if !failed && run.raised.Some? {
        FramesAssociate(old(outbox), p.frames, ErrorFrames(run.raised.value));
        outbox := outbox + ErrorFrames(run.raised.value);
      } else {
        assert p.frames + [] == p.frames;
      }
    }

    /** The loop body applied to each item the stream yields, until a save raises. */
    method ForwardItems(run: Run, team: Team, h0: seq<Frame>) returns (failed: bool, ghost done: Progress)
      modifies this, store
      ensures failed == done.failed
      ensures done == Replay(Progress([], h0, old(store.Contents()), 0, false), run.items, run, team)
      ensures outbox == old(outbox) + done.frames
      ensures store.Contents() == done.disk
      ensures saveCount == old(saveCount) + done.saves
    {
      ghost var init := Progress([], h0, store.Contents(), 0, false);
      ghost var frames: seq<Frame> := [];
      var history := h0;
      var sent := 0;
      failed := false;
      var i := 0;
      while i < |run.items| && !failed
        invariant 0 <= i <= |run.items|
        invariant Replay(init, run.items[..i], run, team)
                  == Progress(frames, history, store.Contents(), sent, failed)
        invariant outbox == old(outbox) + frames
        invariant saveCount == old(saveCount) + sent
      {
        ghost var p := Progress(frames, history, store.Contents(), sent, failed);
        assert run.items[..i + 1][..i] == run.items[..i];
        ghost var added;
        history, sent, failed, added := ForwardItem(run.items[i], run, team, history, sent, p);
        FramesAssociate(old(outbox), frames, added);
        frames := frames + added;
        i := i + 1;
      }
      done := Progress(frames, history, store.Contents(), sent, failed);
      if failed {
        ReplayAfterFailure(init, run.items, i, run, team);
      } else {
        assert run.items[..i] == run.items;
      }
    }

    /** One pass of the loop body (lines 116-144) from the handler state `p`. */
    method ForwardItem(item: StreamItem, run: Run, team: Team, history: seq<Frame>, sent: nat, ghost p: Progress)
      returns (history': seq<Frame>, sent': nat, failed: bool, ghost added: seq<Frame>)
      requires !p.failed && p.history == history && p.disk == store.Contents() && p.saves == sent
      modifies this, store
      ensures outbox == old(outbox) + added
      ensures saveCount + sent == old(saveCount) + sent'
      ensures Step(p, item, run, team) == Progress(p.frames + added, history', store.Contents(), sent', failed)
    {
      var forwarded := Forward(item);
      if forwarded.None? {
        return history, sent, false, [];
      }
      var message := forwarded.value;
      var snapshot := run.snapshot(team, sent);
      history' := Publish(message, history, snapshot);
      if snapshot.Failure? {
        added := [Dump(message)] + ErrorFrames(snapshot.error);
        sent', failed := sent, true;
      } else {
        added := [Dump(message)];
        sent', failed := sent + 1, false;
      }
    }

    /** Lines 127-144 for one message: send it, append it to `history` unless it is an
        input request, empty the state file, then write the state `team.save_state()`
        returns and the whole history; if `save_state()` raises instead, the error
        frames go out and nothing more is written. */
    method Publish(message: Message, history: seq<Frame>, snapshot: Result<State>) returns (extended: seq<Frame>)
      modifies this, store
      ensures extended == history + Dumps(Recorded([message]))
      ensures snapshot.Success? ==>
                && outbox == old(outbox) + [Dump(message)]
                && store.Contents() == Disk(Some(Parsed(extended)), Some(Parsed(snapshot.value)))
                && saveCount == old(saveCount) + 1
      ensures snapshot.Failure? ==>
                && outbox == old(outbox) + [Dump(message)] + ErrorFrames(snapshot.error)
                && store.Contents() == Disk(old(store.history), Some(Truncated))
                && saveCount == old(saveCount)
    {
      outbox := outbox + [Dump(message)];
      extended := history;
      if message.kind != UserInputRequestedEvent {
        extended := extended + [Dump(message)];
      }
      assert Recorded([message]) == (if message.kind == UserInputRequestedEvent then [] else [message]) + Recorded([]);
      assert Dumps([message]) == [Dump(message)] + Dumps([]);
      store.TruncateState();
      if snapshot.Failure? {
        outbox := outbox + ErrorFrames(snapshot.error);
        return;
      }
      store.WriteState(snapshot.value);
      store.SaveHistory(extended);
      saveCount := saveCount + 1;
    }

    /** The outer `while True` (lines 102-107 and 161-172): each request is served in
        turn; a frame that is not a valid TextMessage ends the handler after one
        "Unexpected error" frame; the end of `exchanges` is the client disconnecting. */
    method Serve(exchanges: seq<Exchange>)
      modifies this, store
      ensures outbox == old(outbox) + ServeEffect(old(store.Contents()), exchanges).frames
      ensures store.Contents() == ServeEffect(old(store.Contents()), exchanges).disk
      ensures saveCount == old(saveCount) + ServeEffect(old(store.Contents()), exchanges).saves
    {
      ghost var total := ServeEffect(store.Contents(), exchanges);
      ghost var done := Effect([], store.Contents(), 0);
      var i := 0;
      while i < |exchanges|
        invariant 0 <= i <= |exchanges|
        invariant outbox == old(outbox) + done.frames
        invariant saveCount == old(saveCount) + done.saves
        invariant total == Then(done, ServeEffect(store.Contents(), exchanges[i..]))
      {
        if exchanges[i].inbound.Malformed? {
          ServeUnfold(store.Contents(), exchanges, i);
          FramesAssociate(old(outbox), done.frames, [UnexpectedErrorFrame(exchanges[i].inbound.error)]);
          outbox := outbox + [UnexpectedErrorFrame(exchanges[i].inbound.error)];
          return;
        }
        ghost var first := ServeRequest(exchanges, i);
        ThenAssociates(done, first, ServeEffect(store.Contents(), exchanges[i + 1..]));
        FramesAssociate(old(outbox), done.frames, first.frames);
        done := Then(done, first);
        i := i + 1;
      }
      assert done.frames + [] == done.frames;
    }

    /** One valid request of the outer loop, with the rest of the exchanges still to come. */
    method ServeRequest(exchanges: seq<Exchange>, i: nat) returns (ghost first: Effect)
      requires i < |exchanges| && exchanges[i].inbound.Request?
      modifies this, store
      ensures outbox == old(outbox) + first.frames
      ensures saveCount == old(saveCount) + first.saves
      ensures store.Contents() == first.disk
      ensures ServeEffect(old(store.Contents()), exchanges[i..])
              == Then(first, ServeEffect(store.Contents(), exchanges[i + 1..]))
    {
      ServeUnfold(store.Contents(), exchanges, i);
      first := TurnEffect(store.Contents(), exchanges[i].run);
      HandleTurn(exchanges[i].run);
    }
  }
}
