/** The two local files the service keeps: the chat history (a JSON list of message dumps)
    and the team state (the JSON of `team.save_state()`), with the operations of
    app/api/history.py and the load-or-fresh step of `get_team`
    (app/api/chat.py:84-90, app/core/agents/orchestrator.py:78-84). */
module Persistence {
  import opened Wrappers
  import opened Messages

  /** The team's saved state, as the JSON text `json.dumps(team.save_state())`. */
  datatype State = State(json: string)

  /** A file's content: what was last written, or nothing because it was opened with
      "w" (which truncates) and the write never happened. */
  datatype Stored<T> = Parsed(value: T) | Truncated

  /** `str(e)` of the JSONDecodeError that `json.loads("")` raises. */
  const EmptyJsonError: string := "Expecting value: line 1 column 1 (char 0)"
  /** `str(e)` of the FileNotFoundError that `os.remove(path)` raises on a missing file. */
  function MissingFileError(path: string): (e: string)
    ensures |e| > |path| && e[|e| - |path| - 1..|e| - 1] == path
  {
    "[Errno 2] No such file or directory: '" + path + "'"
  }

  /** The team `get_team` returns: built fresh, or built and then given `load_state`. */
  datatype Team = FreshTeam | RestoredTeam(loaded: State)

  /** A FastAPI response: the handler's value, or an HTTPException. */
  datatype HttpResult<T> = Ok(value: T) | HttpError(status: int, detail: string)

  /** Both files at one moment; `None` is a file that does not exist. */
  datatype Disk = Disk(history: Option<Stored<seq<Frame>>>, state: Option<Stored<State>>)

  /** `get_history()` (app/api/history.py:14-19): a missing file reads as the empty list,
      otherwise the stored list comes back unchanged; an empty file makes `json.loads` raise. */
  function LoadHistory(d: Disk): (r: Result<seq<Frame>>)
    ensures d.history == None ==> r == Success([])
    ensures d.history.Some? && d.history.value.Parsed? ==> r == Success(d.history.value.value)
    ensures r.Failure? <==> d.history == Some(Truncated)
  {
    match d.history
    case None => Success([])
    case Some(Parsed(h)) => Success(h)
    case Some(Truncated) => Failure(EmptyJsonError)
  }

  /** The load-or-fresh tail of `get_team`: no state file means a fresh team and no
      `load_state` call; otherwise the parsed file is loaded into the team. */
  function LoadTeam(d: Disk): (r: Result<Team>)
    ensures r == Success(FreshTeam) <==> d.state == None
    ensures forall s :: r == Success(RestoredTeam(s)) <==> d.state == Some(Parsed(s))
    ensures r.Failure? <==> d.state == Some(Truncated)
  {
    match d.state
    case None => Success(FreshTeam)
    case Some(Parsed(s)) => Success(RestoredTeam(s))
    case Some(Truncated) => Failure(EmptyJsonError)
  }

  /** Both files on the local disk. */
  class Store {
    /** The `STATE_PATH` setting: where the state file lives. */
    const statePath: string
    var history: Option<Stored<seq<Frame>>>
    var state: Option<Stored<State>>

    /** A store whose files have the given contents. */
    constructor (d: Disk, statePath: string)
      ensures Contents() == d && this.statePath == statePath
    {
      this.statePath := statePath;
      history := d.history;
      state := d.state;
    }

    function Contents(): Disk
      reads this
    {
      Disk(history, state)
    }

    /** `get_history()`. */
    method GetHistory() returns (r: Result<seq<Frame>>)
      ensures r == LoadHistory(Contents())
    {
      match history
      case None => r := Success([]);
      case Some(Parsed(h)) => r := Success(h);
      case Some(Truncated) => r := Failure(EmptyJsonError);
    }

    /** `GET /history` (app/api/history.py:22-27): exactly `get_history()`, or a 500 whose
        detail is the error text. */
    method HistoryEndpoint() returns (r: HttpResult<seq<Frame>>)
      ensures r.Ok? <==> LoadHistory(Contents()).Success?
      ensures r.Ok? ==> r.value == LoadHistory(Contents()).value
      ensures r.HttpError? ==> r.status == 500 && r.detail == LoadHistory(Contents()).error
    {
      var h := GetHistory();
      match h
      case Success(v) => r := Ok(v);
      case Failure(e) => r := HttpError(500, e);
    }

    /** The load-or-fresh step of `get_team`. */
    method GetTeam() returns (r: Result<Team>)
      ensures r == LoadTeam(Contents())
    {
      if state == None {
        return Success(FreshTeam);
      }
      match state.value
      case Parsed(s) => r := Success(RestoredTeam(s));
      case Truncated => r := Failure(EmptyJsonError);
    }

    /** `GET /history/clear` (app/api/history.py:29-36): the history file is overwritten
        with `[]`, then the state file is removed; removing a missing file raises, and the
        handler turns that into a 500 after the history was already cleared. */
    method ClearHistory() returns (r: HttpResult<()>)
      modifies this
      ensures history == Some(Parsed([]))
      ensures state == None
      ensures r == if old(state) == None then HttpError(500, MissingFileError(statePath)) else Ok(())
    {
      history := Some(Parsed([]));
      if state == None {
        r := HttpError(500, MissingFileError(statePath));
      } else {
        state := None;
        r := Ok(());
      }
    }

    /** chat.py:135: `open(state_path, "w")` empties the state file. */
    method TruncateState()
      modifies this
      ensures state == Some(Truncated) && history == old(history)
    {
      state := Some(Truncated);
    }

    /** chat.py:138: the state JSON is written into the emptied file. */
    method WriteState(s: State)
      modifies this
      ensures state == Some(Parsed(s)) && history == old(history)
    {
      state := Some(Parsed(s));
    }

    /** chat.py:142-144: the history file is replaced by the whole list. */
    method SaveHistory(h: seq<Frame>)
      modifies this
      ensures history == Some(Parsed(h)) && state == old(state)
    {
      history := Some(Parsed(h));
    }
  }

  /** Clearing twice: both calls leave the history `[]` and no state file; the second
      fails with a 500 because the state file is already gone; afterwards `get_team`
      builds a fresh team and `get_history` reads `[]`. */
  method ClearTwice(store: Store) returns (first: HttpResult<()>, second: HttpResult<()>, team: Result<Team>, h: Result<seq<Frame>>)
    modifies store
    ensures first == if old(store.state) == None then HttpError(500, MissingFileError(store.statePath)) else Ok(())
    ensures second == HttpError(500, MissingFileError(store.statePath))
    ensures team == Success(FreshTeam)
    ensures h == Success([])
    ensures store.Contents() == Disk(Some(Parsed([])), None)
  {
    first := store.ClearHistory();
    second := store.ClearHistory();
    team := store.GetTeam();
    h := store.GetHistory();
  }
}
