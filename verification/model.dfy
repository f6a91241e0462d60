/** The game model: elapsed time, the last pointer position and, for each
    key, whether its latest event was a fresh press (a release or an
    auto-repeat stores false), updated by input and by the frame clock. Saving and loading go
    through a repository whose storage is not modelled. */
module Game {
  import opened Values
  import opened Input

  /** A call the model made on its repository, always for the key "time". */
  datatype Request = SaveTime(time: real) | LoadTime

  /** Stands for the persistence collaborator. It records the calls made on
      it; `answer` is the time value a load hands back (how the repository
      stores and converts values is not modelled). */
  class Repository {
    var requests: seq<Request>
    var answer: real

    constructor (answer: real)
      ensures requests == [] && this.answer == answer
    {
      requests := [];
      this.answer := answer;
    }
  }

  class GameModel {
    var time: real
    /** None after a MouseMove event that carried no position. */
    var mousePos: Option<Position>
    var keys: map<VirtualKey, bool>
    const repository: Repository?

    constructor (repository: Repository?)
      ensures time == 0.0 && mousePos == Some(Position(0.0, 0.0)) && keys == map[]
      ensures this.repository == repository
    {
      time := 0.0;
      mousePos := Some(Position(0.0, 0.0));
      keys := map[];
      this.repository := repository;
    }

    /** Advances the clock by `delta` seconds and changes nothing else. */
    method Update(delta: real)
      modifies this
      ensures time == old(time) + delta
      ensures mousePos == old(mousePos) && keys == old(keys)
    {
      time := time + delta;
    }

    /** Applies one input event. A MouseMove records the pointer position
        (absent if the event had none) and nothing else. Any other key
        records whether it is now pressed; a press of S first asks the
        repository to save the time and a press of L first loads the time
        from it. Without a repository neither request happens. */
    method Operate(param: OperationParam)
      modifies this, repository
      ensures param.code == MouseMove ==>
        && mousePos == param.position && keys == old(keys) && time == old(time)
        && (repository != null ==> repository.requests == old(repository.requests))
      ensures param.code != MouseMove ==>
        && keys == old(keys)[param.code := param.IsPress()]
        && mousePos == old(mousePos)
      ensures param.code != MouseMove && repository != null ==>
        repository.requests == old(repository.requests) + StorageRequests(param, old(time))
      ensures repository != null ==> repository.answer == old(repository.answer)
      ensures time == if param.code == L && param.IsPress() && repository != null then old(repository.answer) else old(time)
    {
      if param.code == MouseMove {
        mousePos := param.position;
        return;
      }
      if param.code == S && param.IsPress() {
        Save();
      } else if param.code == L && param.IsPress() {
        Load();
      }
      keys := keys[param.code := param.IsPress()];
    }

    /** Hands the current time to the repository, if there is one. */
    method Save()
      modifies repository
      ensures repository != null ==> repository.requests == old(repository.requests) + [SaveTime(time)]
      ensures repository != null ==> repository.answer == old(repository.answer)
    {
      if repository != null {
        repository.requests := repository.requests + [SaveTime(time)];
      }
    }

    /** Replaces the time with the repository's answer, if there is a
        repository; otherwise does nothing. */
    method Load()
      modifies this, repository
      ensures repository != null ==> repository.requests == old(repository.requests) + [LoadTime]
      ensures repository != null ==> repository.answer == old(repository.answer)
      ensures time == if repository != null then old(repository.answer) else old(time)
      ensures mousePos == old(mousePos) && keys == old(keys)
    {
      if repository != null {
        repository.requests := repository.requests + [LoadTime];
        time := repository.answer;
      }
    }
  }

  /** The repository calls an event other than MouseMove causes when the
      model has a repository: a save of the current time for a press of S, a
      load for a press of L, and none otherwise. */
  function StorageRequests(param: OperationParam, time: real): (rs: seq<Request>)
    ensures |rs| <= 1
    ensures rs == [SaveTime(time)] <==> param.code == S && param.IsPress()
    ensures rs == [LoadTime] <==> param.code == L && param.IsPress()
    ensures !param.IsPress() ==> rs == []
    ensures rs != [] ==> param.IsPress() && (param.code == S || param.code == L)
  {
    if param.code == S && param.IsPress() then [SaveTime(time)]
    else if param.code == L && param.IsPress() then [LoadTime]
    else []
  }

  /** A fresh model without a repository starts at time 0, reaches time 1
      after a one-second update, and records the position of a pointer move
      to (10, 20). */
  method ClockAndPointerScenario() returns (start: real, later: real, pointer: Option<Position>)
    ensures start == 0.0 && later == 1.0 && pointer == Some(Position(10.0, 20.0))
  {
    var model := new GameModel(null);
    start := model.time;
    model.Update(1.0);
    later := model.time;
    model.Operate(OperationParam(MouseMove, Press, Some(Position(10.0, 20.0))));
    pointer := model.mousePos;
  }
}
