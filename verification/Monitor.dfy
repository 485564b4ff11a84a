/** The globals around `upload_data`: the two re-entry guards and the call made from the timer. */
module Monitor {
  import opened Bytes
  import opened FrameMachine
  import Upload

  /** The state after the opening 'Q' has been written, or has failed to be. */
  function Opened(asks: bool): State {
    Written(START, ASK, asks)
  }

  class Port {
    var anyOneHere: bool
    var alreadyUploading: bool
    var tx: seq<byte>
    var file: seq<byte>

    constructor ()
      ensures !anyOneHere && !alreadyUploading && tx == [] && file == []
    {
      anyOneHere, alreadyUploading, tx, file := false, false, [], [];
    }

    /** One call. `asks` says whether writing 'Q' succeeds; `used` is the number of reads made.
        The call has not returned when the events run out inside its loop. Nothing is claimed about its result
        and its guard after a store beyond a buffer, where C promises nothing. */
    method UploadData(asks: bool, events: seq<Event>) returns (returned: bool, code: int, used: nat, exit: Exit)
      modifies this
      ensures alreadyUploading == old(alreadyUploading)
      // a nested call reads and writes nothing
      ensures old(anyOneHere) ==>
        && returned && code == 1 && used == 0 && exit == Running
        && anyOneHere && tx == old(tx) && file == old(file)
      // an admitted call makes the run of the machine, and releases the guard on every exit
      ensures !old(anyOneHere) ==>
        && used <= |events|
        && var s := Run(Opened(asks), events[..used]);
        && exit == s.exit && tx == old(tx) + s.tx && file == old(file) + s.file
        && (exit == Running ==> used == |events| && anyOneHere && !returned)
        && (exit != Running ==> used > 0 && Run(Opened(asks), events[..used - 1]).exit == Running)
        && (exit != Running && exit != Fault ==> returned && !anyOneHere)
        && (exit == Discarded || exit == EndOfRecord ==> code == 1)
        && (exit == ReadError || exit == NoPrompt || exit == PromptLost ==> code == 0)
    {
      if anyOneHere {
        return true, 1, 0, Running;
      }
      anyOneHere := true;
      hide Run;
      var call := new Upload.Call();
      if asks {
        call.tx := call.tx + [ASK];
      }
      used := call.Loop(events);
      tx, file := tx + call.tx, file + call.file;
      exit := call.exit;
      code := if exit == Discarded || exit == EndOfRecord then 1 else 0;
      returned := exit != Running && exit != Fault;
      if returned {
        anyOneHere := false;
      }
    }

    /** The timer handler does nothing while a previous one is still uploading, and nothing lasting while the
        guard of the call is taken. */
    method OnTimer(asks: bool, events: seq<Event>) returns (used: nat, exit: Exit)
      modifies this
      ensures old(alreadyUploading) ==>
        used == 0 && tx == old(tx) && file == old(file) && alreadyUploading && anyOneHere == old(anyOneHere)
      ensures !old(alreadyUploading) && old(anyOneHere) ==>
        used == 0 && tx == old(tx) && file == old(file) && !alreadyUploading && anyOneHere
      ensures !old(alreadyUploading) && !old(anyOneHere) ==>
        && used <= |events|
        && var s := Run(Opened(asks), events[..used]);
        && exit == s.exit && tx == old(tx) + s.tx && file == old(file) + s.file
        && (exit != Fault ==> anyOneHere == alreadyUploading == (exit == Running))
    {
      used, exit := 0, Running;
      if alreadyUploading {
        return;
      }
      alreadyUploading := true;
      var returned: bool;
      var code: int;
      returned, code, used, exit := UploadData(asks, events);
      if returned {
        alreadyUploading := false;
      }
    }
  }
}
