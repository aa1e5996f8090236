/** The guarded block store of src/Ladybug_Flash.c. The storage service's
    completion upcall and the one-shot timer's timeout upcall are explicit event
    methods; each busy-wait on the wait flag becomes the precondition of the
    step that follows it (the step can run only once the flag is clear). */
module Flash {
  import opened Basics
  import opened FlashLayout

  /** NRF_SUCCESS: the result code the completion handler treats as success. */
  const SUCCESS: u32 := 0

  /** The error codes the store passes to the error handler or to its caller. */
  datatype ErrorCode =
    | FlashUnsureWhatDataToRead
    | NullPointer
    | NumBytesToWrite
    | InvalidCommand
    | FlashActionNotCompleted
    | ServiceError(code: u32)

  /** The caller's completion callback, told apart by an identifier. */
  type Callback = nat

  /** A request handed to the storage service for one block. */
  datatype Request = Load(block: nat) | Clear(block: nat) | Store(block: nat, data: seq<byte>)

  /** What the store is waiting for: nothing, or the request it last issued. */
  datatype Phase = Idle | Loading(block: nat) | Clearing(block: nat, data: seq<byte>) | Storing(block: nat, data: seq<byte>)

  datatype TimerAction = StartTimer | StopTimer

  /** The block each kind is given at init; hydroValues has none. */
  const BLOCK_HANDLES: map<Kind, nat> := map[CalibrationValues := 0, PlantInfo := 1, DeviceName := 2]

  /** Every stored kind has its own block, every block belongs to a kind, and
      hydroValues has no block. */
  lemma BlockHandlesBijective()
    ensures HydroValues !in BLOCK_HANDLES
    ensures forall k :: k != HydroValues ==> k in BLOCK_HANDLES && BLOCK_HANDLES[k] < BLOCK_COUNT
    ensures forall k1, k2 :: k1 in BLOCK_HANDLES && k2 in BLOCK_HANDLES && BLOCK_HANDLES[k1] == BLOCK_HANDLES[k2] ==> k1 == k2
    ensures forall b :: 0 <= b < BLOCK_COUNT ==> b in BLOCK_HANDLES.Values
  {
    assert BLOCK_HANDLES[CalibrationValues] == 0;
    assert BLOCK_HANDLES[PlantInfo] == 1;
    assert BLOCK_HANDLES[DeviceName] == 2;
  }

  /** A block after a store of `data` at offset 0: the stored bytes, then what
      the block held beyond them. */
  function Stored(block: seq<byte>, data: seq<byte>): (r: seq<byte>)
    requires |data| <= |block|
    ensures |r| == |block|
    ensures r[..|data|] == data && r[|data|..] == block[|data|..]
  {
    data + block[|data|..]
  }

  /** A clear followed by a store yields the stored bytes padded with the
      erase pattern, whatever the block held before. */
  lemma {:induction false} ClearThenStore(data: seq<byte>)
    requires |data| <= BLOCK_SIZE
    ensures Stored(Fill(ERASED, BLOCK_SIZE), data) == WrittenBlock(data)
  {
    var r := Stored(Fill(ERASED, BLOCK_SIZE), data);
    forall i | 0 <= i < BLOCK_SIZE
      ensures r[i] == WrittenBlock(data)[i]
    {
      if i < |data| {
        assert r[i] == r[..|data|][i];
        assert WrittenBlock(data)[i] == WrittenBlock(data)[..|data|][i];
      } else {
        assert r[i] == r[|data|..][i - |data|];
      }
    }
  }

  /** What the completion handler passes to the error handler for `result`:
      nothing on success, the service's own code otherwise. */
  function ResultErrors(result: u32): (e: seq<ErrorCode>)
    ensures e == [] <==> result == SUCCESS
    ensures e != [] ==> e == [ServiceError(result)]
  {
    if result == SUCCESS then [] else [ServiceError(result)]
  }

  /** A block after the clear completes with `clearResult` and the store of
      `data` with `storeResult`: a failed request leaves the block as it was,
      so both failing keeps the old contents, a failed store after a good
      clear leaves the block erased, a store after a failed clear writes over
      the old contents, and both succeeding gives the bytes padded with the
      erase pattern. */
  function BlockAfterWrite(block: seq<byte>, data: seq<byte>, clearResult: u32, storeResult: u32): (r: seq<byte>)
    requires |block| == BLOCK_SIZE && |data| <= BLOCK_SIZE
    ensures |r| == BLOCK_SIZE
    ensures clearResult == SUCCESS && storeResult == SUCCESS ==> r == WrittenBlock(data)
    ensures clearResult == SUCCESS && storeResult != SUCCESS ==> r == Fill(ERASED, BLOCK_SIZE)
    ensures clearResult != SUCCESS && storeResult == SUCCESS ==>
      r[..|data|] == data && r[|data|..] == block[|data|..]
    ensures clearResult != SUCCESS && storeResult != SUCCESS ==> r == block
  {
    var cleared := if clearResult == SUCCESS then Fill(ERASED, BLOCK_SIZE) else block;
    if storeResult == SUCCESS then
      if clearResult == SUCCESS then ClearThenStore(data); Stored(cleared, data)
      else Stored(cleared, data)
    else cleared
  }

  /** The store never lets a store reach the service unless the request just
      before it cleared the same block. */
  ghost predicate ClearBeforeStore(log: seq<Request>)
  {
    forall i :: 0 <= i < |log| && log[i].Store? ==> 0 < i && log[i - 1] == Clear(log[i].block)
  }

  /** Appending a load or a clear keeps every store preceded by its clear. */
  lemma {:induction false} ClearBeforeStoreAppend(log: seq<Request>, r: Request)
    requires ClearBeforeStore(log) && !r.Store?
    ensures ClearBeforeStore(log + [r])
  {
    var log' := log + [r];
    forall i | 0 <= i < |log'| && log'[i].Store?
      ensures 0 < i && log'[i - 1] == Clear(log'[i].block)
    {
      assert log'[i] == log[i];
    }
  }

  /** A store right after the clear of its block keeps the log well ordered. */
  lemma {:induction false} ClearBeforeStoreAppendStore(log: seq<Request>, b: nat, data: seq<byte>)
    requires ClearBeforeStore(log) && |log| > 0 && log[|log| - 1] == Clear(b)
    ensures ClearBeforeStore(log + [Store(b, data)])
  {
    var log' := log + [Store(b, data)];
    forall i | 0 <= i < |log'| && log'[i].Store?
      ensures 0 < i && log'[i - 1] == Clear(log'[i].block)
    {
      if i < |log| {
        assert log'[i] == log[i] && log'[i - 1] == log[i - 1];
      }
    }
  }

  class FlashStore {
    /** The three persistent blocks, as the flash holds them. */
    var blocks: seq<seq<byte>>
    /** Block handles obtained at init (empty before). */
    var handles: map<Kind, nat>
    var initialized: bool
    /** m_mypstorage_wait_flag */
    var waitFlag: bool
    /** Whether the one-shot timer is running. */
    var timerArmed: bool
    /** m_flash_return: the callback of the latest read or write. */
    var flashReturn: Option<Callback>
    /** The caller's destination buffer of an ongoing or finished read. */
    var buffer: seq<byte>
    var phase: Phase
    /** Codes passed to the error handler, which logs and returns. */
    var errors: seq<ErrorCode>
    /** Codes passed to callbacks. */
    var reports: seq<(Callback, ErrorCode)>
    /** Every request handed to the storage service, in order. */
    ghost var issued: seq<Request>
    /** Every start and stop of the timer, in order. */
    ghost var timerLog: seq<TimerAction>
    /** Set when the timer fired with no callback recorded: the C code then
        calls through a NULL function pointer, whose effect is undefined. */
    var faulted: bool

    ghost predicate Valid()
      reads this
    {
      && |blocks| == BLOCK_COUNT
      && (forall i :: 0 <= i < |blocks| ==> |blocks[i]| == BLOCK_SIZE)
      && |buffer| == BLOCK_SIZE
      && handles == (if initialized then BLOCK_HANDLES else map[])
      && (!phase.Idle? ==> phase.block < BLOCK_COUNT)
      && ((phase.Clearing? || phase.Storing?) ==> |phase.data| <= BLOCK_SIZE)
      && (waitFlag ==> !phase.Idle?)
      && ClearBeforeStore(issued)
      && (phase.Clearing? ==> |issued| > 0 && issued[|issued| - 1] == Clear(phase.block))
    }

    /** Power-up: the flash holds `persisted`; nothing is registered yet. */
    constructor (persisted: seq<seq<byte>>)
      requires |persisted| == BLOCK_COUNT
      requires forall i :: 0 <= i < |persisted| ==> |persisted[i]| == BLOCK_SIZE
      ensures Valid()
      ensures blocks == persisted && !initialized && phase == Idle
      ensures !waitFlag && !timerArmed && flashReturn == None && !faulted
      ensures errors == [] && reports == [] && issued == [] && timerLog == []
    {
      blocks := persisted;
      handles := map[];
      initialized := false;
      waitFlag := false;
      timerArmed := false;
      flashReturn := None;
      buffer := Fill(0, BLOCK_SIZE);
      phase := Idle;
      errors := [];
      reports := [];
      issued := [];
      timerLog := [];
      faulted := false;
    }

    /** ladybug_flash_init: registers three blocks and fixes the kind-to-block
        mapping that every later read and write uses. */
    method Init()
      requires Valid()
      modifies this`initialized, this`handles
      ensures Valid()
      ensures initialized && handles == BLOCK_HANDLES
    {
      initialized := true;
      handles := BLOCK_HANDLES;
    }

    /** ladybug_flash_read up to its busy-wait: records the callback, resolves
        the kind, sets the wait flag, arms the timer and asks for a whole-block
        load into `dest`. A kind with no block goes to the error handler and the
        read stops there. */
    method ReadBegin(k: Kind, dest: seq<byte>, cb: Option<Callback>)
      requires Valid() && initialized && phase.Idle?
      requires |dest| == BLOCK_SIZE
      modifies this`flashReturn, this`errors, this`waitFlag, this`timerArmed, this`phase, this`buffer, this`issued, this`timerLog
      ensures Valid()
      ensures flashReturn == cb
      ensures k !in handles ==> errors == old(errors) + [FlashUnsureWhatDataToRead]
      ensures k !in handles ==> phase == Idle && waitFlag == old(waitFlag) && timerArmed == old(timerArmed)
      ensures k !in handles ==> buffer == old(buffer) && issued == old(issued) && timerLog == old(timerLog)
      ensures k in handles ==> errors == old(errors) && buffer == dest
      ensures k in handles ==> waitFlag && timerArmed && phase == Loading(handles[k])
      ensures k in handles ==> issued == old(issued) + [Load(handles[k])] && timerLog == old(timerLog) + [StartTimer]
    {
      flashReturn := cb;
      if k !in handles {
        errors := errors + [FlashUnsureWhatDataToRead];
        return;
      }
      BlockHandlesBijective();
      StartLoad(handles[k], dest);
    }

    /** Sets the wait flag, arms the timer and asks the service to load block
        `b` whole into `dest`. */
    method StartLoad(b: nat, dest: seq<byte>)
      requires Valid() && phase.Idle? && b < BLOCK_COUNT && |dest| == BLOCK_SIZE
      modifies this`waitFlag, this`timerArmed, this`phase, this`buffer, this`issued, this`timerLog
      ensures Valid()
      ensures waitFlag && timerArmed && phase == Loading(b) && buffer == dest
      ensures issued == old(issued) + [Load(b)] && timerLog == old(timerLog) + [StartTimer]
    {
      ClearBeforeStoreAppend(issued, Load(b));
      waitFlag := true;
      timerArmed := true;
      timerLog := timerLog + [StartTimer];
      buffer := dest;
      phase := Loading(b);
      issued := issued + [Load(b)];
    }

    /** ladybug_flash_handler: the storage service reports that the request in
        flight has completed with `result`. A non-success result goes to the
        error handler (which returns) and leaves the flash as it was; the wait
        flag is cleared in every case. */
    method FlashHandler(result: u32)
      requires Valid() && waitFlag
      modifies this`waitFlag, this`errors, this`blocks, this`buffer
      ensures Valid()
      ensures !waitFlag
      ensures errors == old(errors) + ResultErrors(result)
      ensures result != SUCCESS ==> blocks == old(blocks) && buffer == old(buffer)
      ensures result == SUCCESS && phase.Loading? ==> blocks == old(blocks) && buffer == old(blocks)[phase.block]
      ensures result == SUCCESS && phase.Clearing? ==>
        buffer == old(buffer) && blocks == old(blocks)[phase.block := Fill(ERASED, BLOCK_SIZE)]
      ensures result == SUCCESS && phase.Storing? ==>
        buffer == old(buffer) && blocks == old(blocks)[phase.block := Stored(old(blocks)[phase.block], phase.data)]
    {
      if result != SUCCESS {
        errors := errors + [ServiceError(result)];
      } else {
        match phase
        case Loading(b) =>
          buffer := blocks[b];
        case Clearing(b, _) =>
          blocks := blocks[b := Fill(ERASED, BLOCK_SIZE)];
        case Storing(b, data) =>
          blocks := blocks[b := Stored(blocks[b], data)];
      }
      waitFlag := false;
    }

    /** timeout_handler: the one-shot timer fired before the completion event.
        The caller's callback gets FlashActionNotCompleted; with no callback
        recorded (a read may record a NULL one) the call is a fault and
        nothing is reported. The wait flag is left as it was, so a spinning
        caller keeps spinning. */
    method TimeoutHandler()
      requires Valid() && timerArmed
      modifies this`reports, this`timerArmed, this`faulted
      ensures Valid()
      ensures flashReturn.Some? ==>
        reports == old(reports) + [(flashReturn.value, FlashActionNotCompleted)] && faulted == old(faulted)
      ensures flashReturn.None? ==> reports == old(reports) && faulted
      ensures !timerArmed
      ensures waitFlag == old(waitFlag) && phase == old(phase)
    {
      timerArmed := false;
      if flashReturn.Some? {
        reports := reports + [(flashReturn.value, FlashActionNotCompleted)];
      } else {
        faulted := true;
      }
    }

    /** The rest of ladybug_flash_read once the wait flag is clear: stops the
        timer and hands back the whole block the destination now holds. */
    method ReadFinish() returns (data: seq<byte>)
      requires Valid() && phase.Loading? && !waitFlag
      modifies this`timerArmed, this`phase, this`timerLog
      ensures Valid()
      ensures data == buffer && |data| == BLOCK_SIZE
      ensures phase == Idle && !timerArmed && timerLog == old(timerLog) + [StopTimer]
    {
      timerArmed := false;
      timerLog := timerLog + [StopTimer];
      phase := Idle;
      data := buffer;
    }

    /** ladybug_flash_write up to its first busy-wait. A missing buffer or
        callback, a zero count and a kind with no block each go to the error
        handler, which returns. A missing callback alone does not stop the
        write: it is only called if the timer fires. With a buffer, a non-zero
        count and a mapped kind the flag is set, the timer armed and a clear of
        the whole block issued; otherwise the write stops after its checks. */
    method WriteBegin(k: Kind, data: Option<seq<byte>>, numBytes: nat, cb: Option<Callback>) returns (accepted: bool)
      requires Valid() && initialized && phase.Idle?
      requires numBytes <= BLOCK_SIZE
      requires data.Some? ==> numBytes <= |data.value|
      modifies this`flashReturn, this`errors, this`waitFlag, this`timerArmed, this`phase, this`issued, this`timerLog
      ensures Valid()
      ensures errors == old(errors)
        + (if data.None? || cb.None? then [NullPointer] else [])
        + (if numBytes == 0 then [NumBytesToWrite] else [])
        + (if k in handles then [] else [InvalidCommand])
      ensures accepted <==> data.Some? && numBytes > 0 && k in handles
      ensures flashReturn == cb
      ensures accepted ==> waitFlag && timerArmed && phase == Clearing(handles[k], data.value[..numBytes])
      ensures accepted ==> issued == old(issued) + [Clear(handles[k])] && timerLog == old(timerLog) + [StartTimer]
      ensures !accepted ==> phase == Idle && waitFlag == old(waitFlag) && timerArmed == old(timerArmed)
      ensures !accepted ==> issued == old(issued) && timerLog == old(timerLog)
    {
      flashReturn := cb;
      errors := errors
        + (if data.None? || cb.None? then [NullPointer] else [])
        + (if numBytes == 0 then [NumBytesToWrite] else [])
        + (if k in handles then [] else [InvalidCommand]);
      accepted := data.Some? && numBytes > 0 && k in handles;
      if !accepted {
        return;
      }
      BlockHandlesBijective();
      StartClear(handles[k], data.value[..numBytes]);
    }

    /** Sets the wait flag, arms the timer and asks the service to clear block
        `b`, remembering the bytes to store once the clear completes. */
    method StartClear(b: nat, bytes: seq<byte>)
      requires Valid() && phase.Idle? && b < BLOCK_COUNT && |bytes| <= BLOCK_SIZE
      modifies this`waitFlag, this`timerArmed, this`phase, this`issued, this`timerLog
      ensures Valid()
      ensures waitFlag && timerArmed && phase == Clearing(b, bytes)
      ensures issued == old(issued) + [Clear(b)] && timerLog == old(timerLog) + [StartTimer]
    {
      ClearBeforeStoreAppend(issued, Clear(b));
      waitFlag := true;
      timerArmed := true;
      timerLog := timerLog + [StartTimer];
      phase := Clearing(b, bytes);
      issued := issued + [Clear(b)];
    }

    /** ladybug_flash_write between its busy-waits: the clear has completed, so
        the timer is stopped and re-armed, the flag set again and the store of
        the bytes at offset 0 issued. */
    method WriteStore()
      requires Valid() && phase.Clearing? && !waitFlag
      modifies this`waitFlag, this`timerArmed, this`phase, this`issued, this`timerLog
      ensures Valid()
      ensures phase == Storing(old(phase).block, old(phase).data)
      ensures waitFlag && timerArmed
      ensures issued == old(issued) + [Store(old(phase).block, old(phase).data)]
      ensures timerLog == old(timerLog) + [StopTimer, StartTimer]
    {
      var b, d := phase.block, phase.data;
      timerLog := timerLog + [StopTimer, StartTimer];
      timerArmed := true;
      waitFlag := true;
      ClearBeforeStoreAppendStore(issued, b, d);
      issued := issued + [Store(b, d)];
      phase := Storing(b, d);
    }

    /** The end of ladybug_flash_write once the store has completed. */
    method WriteFinish()
      requires Valid() && phase.Storing? && !waitFlag
      modifies this`timerArmed, this`phase, this`timerLog
      ensures Valid()
      ensures phase == Idle && !timerArmed && timerLog == old(timerLog) + [StopTimer]
    {
      timerArmed := false;
      timerLog := timerLog + [StopTimer];
      phase := Idle;
    }

    /** A whole read in which the service completes the load with `result`
        and the timer does not fire. */
    method Read(k: Kind, dest: seq<byte>, cb: Option<Callback>, result: u32) returns (data: seq<byte>)
      requires Valid() && initialized && phase.Idle?
      requires |dest| == BLOCK_SIZE
      modifies this
      ensures Valid() && initialized && phase == Idle && !waitFlag
      ensures blocks == old(blocks) && reports == old(reports) && flashReturn == cb && faulted == old(faulted)
      ensures k == HydroValues ==> data == dest && errors == old(errors) + [FlashUnsureWhatDataToRead]
      ensures k == HydroValues ==> issued == old(issued) && timerLog == old(timerLog)
      ensures k != HydroValues ==> data == (if result == SUCCESS then blocks[BLOCK_HANDLES[k]] else dest)
      ensures k != HydroValues ==> errors == old(errors) + ResultErrors(result)
      ensures k != HydroValues ==> issued == old(issued) + [Load(BLOCK_HANDLES[k])]
      ensures k != HydroValues ==> !timerArmed && timerLog == old(timerLog) + [StartTimer, StopTimer]
    {
      ReadBegin(k, dest, cb);
      if k !in handles {
        data := dest;
        return;
      }
      FlashHandler(result);
      data := ReadFinish();
    }

    /** A whole write in which the service completes the clear with
        `clearResult` and the store with `storeResult`, and the timer does not
        fire. The error handler gets the rejection codes, then any service
        error of the clear and of the store; only the kind's own block can
        change, as BlockAfterWrite says, and when both steps succeed it holds
        the bytes followed by the erase pattern. */
    method Write(k: Kind, data: Option<seq<byte>>, numBytes: nat, cb: Option<Callback>, clearResult: u32, storeResult: u32)
      returns (accepted: bool)
      requires Valid() && initialized && phase.Idle?
      requires numBytes <= BLOCK_SIZE
      requires data.Some? ==> numBytes <= |data.value|
      modifies this
      ensures Valid() && initialized && phase == Idle && reports == old(reports) && flashReturn == cb
      ensures faulted == old(faulted)
      ensures accepted <==> data.Some? && numBytes > 0 && k != HydroValues
      ensures errors == old(errors)
        + (if data.None? || cb.None? then [NullPointer] else [])
        + (if numBytes == 0 then [NumBytesToWrite] else [])
        + (if k != HydroValues then [] else [InvalidCommand])
        + (if accepted then ResultErrors(clearResult) + ResultErrors(storeResult) else [])
      ensures accepted ==> blocks == old(blocks)[BLOCK_HANDLES[k] :=
        BlockAfterWrite(old(blocks)[BLOCK_HANDLES[k]], data.value[..numBytes], clearResult, storeResult)]
      ensures !accepted ==> blocks == old(blocks) && issued == old(issued) && timerLog == old(timerLog)
      ensures accepted ==> !waitFlag && !timerArmed
      ensures accepted ==> issued == old(issued) + [Clear(BLOCK_HANDLES[k]), Store(BLOCK_HANDLES[k], data.value[..numBytes])]
      ensures accepted ==> timerLog == old(timerLog) + [StartTimer, StopTimer, StartTimer, StopTimer]
      ensures accepted ==> forall b :: 0 <= b < BLOCK_COUNT && b != BLOCK_HANDLES[k] ==> blocks[b] == old(blocks)[b]
      ensures accepted && clearResult == SUCCESS && storeResult == SUCCESS ==>
        blocks == old(blocks)[BLOCK_HANDLES[k] := WrittenBlock(data.value[..numBytes])]
    {
      accepted := WriteBegin(k, data, numBytes, cb);
      if accepted {
        CompleteWrite(clearResult, storeResult);
      }
    }

    /** The part of ladybug_flash_write after the clear has been issued: the
        clear completes with `clearResult`, the store is issued and completes
        with `storeResult`. Each failure goes to the error handler; only the
        block being written changes, as BlockAfterWrite says. */
    method CompleteWrite(clearResult: u32, storeResult: u32)
      requires Valid() && phase.Clearing? && waitFlag
      modifies this`waitFlag, this`errors, this`blocks, this`buffer, this`timerArmed, this`phase, this`issued, this`timerLog
      ensures Valid() && phase == Idle && !waitFlag && !timerArmed
      ensures issued == old(issued) + [Store(old(phase).block, old(phase).data)]
      ensures timerLog == old(timerLog) + [StopTimer, StartTimer, StopTimer]
      ensures errors == old(errors) + ResultErrors(clearResult) + ResultErrors(storeResult)
      ensures blocks == old(blocks)[old(phase).block :=
        BlockAfterWrite(old(blocks)[old(phase).block], old(phase).data, clearResult, storeResult)]
      ensures forall b :: 0 <= b < BLOCK_COUNT && b != old(phase).block ==> blocks[b] == old(blocks)[b]
      ensures clearResult == SUCCESS && storeResult == SUCCESS ==>
        blocks == old(blocks)[old(phase).block := WrittenBlock(old(phase).data)]
    {
      FlashHandler(clearResult);
      WriteStore();
      FlashHandler(storeResult);
      WriteFinish();
    }
  }
}
