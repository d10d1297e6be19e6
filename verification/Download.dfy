/** The resumable download: a state machine over an unreliable network that hands data to a handler,
    which may leave some of it to be handed over again together with what comes next. */
module HttpDownload {

  type Byte = b: int | 0 <= b < 256

  datatype State = NetworkConnect | NetworkReconnect | FilesizeGet | RangeRequest | DataGet | Complete

  /** What the outside does in one turn of the loop: whether connecting, asking for the file size and
      requesting a range succeed, what is received at most (an error or the end of the connection if
      not positive), and how many bytes the handler would leave. */
  datatype Turn = Turn(connects: bool, tellsSize: bool, accepts: bool, delivers: int, leaves: nat)

  /** What the handler is told. */
  datatype Event = Start | OnFilesize(size: nat) | OnData(data: seq<Byte>, offset: nat, left: nat) | Finish | Fault

  const RANGE_REQUEST_LENGTH_DEFAULT := 8 * 1024

  /** What a receive of at most `room` bytes returns when `ahead` bytes are still to come. */
  function Received(delivers: int, room: nat, ahead: nat): (n: int)
    ensures n <= room && n <= ahead
  {
    if delivers <= 0 || (delivers <= room && delivers <= ahead) then delivers
    else if room <= ahead then room
    else ahead
  }

  /** A turn in which nothing goes wrong outside, and the handler takes enough to go on. */
  predicate Good(t: Turn, range: nat) { t.connects && t.tellsSize && t.accepts && t.delivers > 0 && t.leaves < range }

  /** How many of the last turns are good. */
  function GoodAtEnd(turns: seq<Turn>, range: nat): (n: nat)
    ensures n <= |turns| && forall i :: |turns| - n <= i < |turns| ==> Good(turns[i], range)
  {
    if turns == [] || !Good(turns[|turns| - 1], range) then 0 else 1 + GoodAtEnd(turns[..|turns| - 1], range)
  }

  /** The bytes the handler has taken. */
  function Accepted(events: seq<Event>): seq<Byte> {
    if events == [] then []
    else
      var last := events[|events| - 1];
      Accepted(events[..|events| - 1]) +
      if last.OnData? && last.left <= |last.data| then last.data[..|last.data| - last.left] else []
  }

  lemma AcceptedMore(events: seq<Event>, e: Event)
    ensures Accepted(events + [e]) ==
            Accepted(events) + if e.OnData? && e.left <= |e.data| then e.data[..|e.data| - e.left] else []
  {}

  /** The data comes from the file, at the offset that is told with it, and the offset is where the
      handler is. */
  ghost predicate FaithfulPiece(before: seq<Event>, e: Event, file: seq<Byte>) {
    e.OnData? ==>
      && e.offset == |Accepted(before)| && e.offset + |e.data| <= |file| && e.left <= |e.data|
      && e.data == file[e.offset..e.offset + |e.data|]
  }

  ghost predicate Faithful(events: seq<Event>, file: seq<Byte>) {
    forall i :: 0 <= i < |events| ==> FaithfulPiece(events[..i], events[i], file)
  }

  lemma FaithfulMore(events: seq<Event>, e: Event, file: seq<Byte>)
    requires Faithful(events, file) && FaithfulPiece(events, e, file)
    ensures Faithful(events + [e], file)
  {
    hide FaithfulPiece;
    var more := events + [e];
    forall i | 0 <= i < |more| ensures FaithfulPiece(more[..i], more[i], file) {
      if i < |events| {
        assert more[..i] == events[..i] && more[i] == events[i];
      } else {
        assert more[..i] == events;
      }
    }
  }

  /** The handler has taken what came before the `held` bytes, which end at `at`. */
  ghost predicate InStep(events: seq<Event>, file: seq<Byte>, at: nat, held: seq<Byte>) {
    && |held| <= at <= |file| && Accepted(events) == file[..at - |held|] && held == file[at - |held|..at]
    && Faithful(events, file)
  }

  /** `data` is what is held followed by the next bytes of the file. */
  ghost predicate Continues(file: seq<Byte>, at: nat, held: seq<Byte>, data: seq<Byte>) {
    |held| <= |data| && |held| <= at && at - |held| + |data| <= |file| && data == held + file[at..at - |held| + |data|]
  }

  lemma ContinuesWith(file: seq<Byte>, at: nat, held: seq<Byte>, n: nat)
    requires |held| <= at && at + n <= |file|
    ensures Continues(file, at, held, held + file[at..at + n])
  {}

  /** Handing over everything held together with new bytes, of which the last `left` come back. */
  lemma HandedOver(events: seq<Event>, file: seq<Byte>, at: nat, held: seq<Byte>, data: seq<Byte>, left: nat)
    requires InStep(events, file, at, held) && Continues(file, at, held, data) && left <= |data|
    ensures InStep(events + [OnData(data, at - |held|, left)], file, at - |held| + |data|, data[|data| - left..])
  {
    hide Accepted, Faithful;
    var e := OnData(data, at - |held|, left);
    AcceptedMore(events, e);
    Joined(file, at, held, data);
    Front(file, at - |held|);
    FaithfulMore(events, e, file);
    Split(file, at - |held|, data, left);
  }

  lemma Front(file: seq<Byte>, n: nat)
    requires n <= |file|
    ensures |file[..n]| == n
  {}

  lemma Joined(file: seq<Byte>, at: nat, held: seq<Byte>, data: seq<Byte>)
    requires |held| <= at <= |file| && held == file[at - |held|..at] && |held| <= |data|
    requires at - |held| + |data| <= |file|
    requires data == held + file[at..at - |held| + |data|]
    ensures data == file[at - |held|..at - |held| + |data|]
  {}

  lemma Split(file: seq<Byte>, from: nat, data: seq<Byte>, left: nat)
    requires from + |data| <= |file| && data == file[from..from + |data|] && left <= |data|
    ensures file[..from] + data[..|data| - left] == file[..from + |data| - left]
    ensures data[|data| - left..] == file[from + |data| - left..from + |data|]
  {}

  lemma Told(events: seq<Event>, file: seq<Byte>, at: nat, held: seq<Byte>, e: Event)
    requires InStep(events, file, at, held) && !e.OnData?
    ensures InStep(events + [e], file, at, held)
  {
    AcceptedMore(events, e);
    FaithfulMore(events, e, file);
    hide Accepted, Faithful;
    assert Accepted(events) + [] == Accepted(events);
  }

  class Download {
    const file: seq<Byte>
    const rangeLength: nat
    const hasHandler: bool
    const buffer: array<Byte>
    var state: State
    var fileSize: nat
    var receivedSize: nat
    var remainLen: nat
    var isCompleted: bool
    var events: seq<Event>
    /** Where the server is in the file, on the current connection. */
    var serverAt: nat

    /** `configured` is the file size given by the caller, 0 if not known. */
    constructor (contents: seq<Byte>, range: nat, configured: nat, handler: bool)
      ensures Valid() && fresh(buffer) && file == contents && hasHandler == handler && events == []
      ensures fileSize == configured
      ensures rangeLength == if range == 0 then RANGE_REQUEST_LENGTH_DEFAULT else range
    {
      file, hasHandler := contents, handler;
      rangeLength := if range == 0 then RANGE_REQUEST_LENGTH_DEFAULT else range;
      buffer := new Byte[(if range == 0 then RANGE_REQUEST_LENGTH_DEFAULT else range) + 1];
      state, fileSize, receivedSize, remainLen, isCompleted := NetworkConnect, configured, 0, 0, false;
      events, serverAt := [], 0;
    }

    /** What holds after every turn, whatever the network and the handler do. */
    ghost predicate Valid()
      reads this, buffer
    {
      && buffer.Length == rangeLength + 1 && remainLen <= rangeLength
      && InStep(events, file, receivedSize, buffer[..remainLen])
      && serverAt <= |file| && (state.DataGet? && hasHandler ==> serverAt == receivedSize)
      && (state.Complete? || isCompleted ==> receivedSize >= fileSize)
      && (state.Complete? || isCompleted || receivedSize < fileSize || receivedSize == 0)
      && (Finish in events ==> isCompleted)
      && (!hasHandler ==> events == [] && receivedSize == 0)
    }

    /** What a receive in this turn would return. */
    ghost function Incoming(t: Turn): int
      requires remainLen <= rangeLength && serverAt <= |file| && receivedSize <= |file|
      reads this
    {
      Received(t.delivers, rangeLength - remainLen, |file| - if state.DataGet? then serverAt else receivedSize)
    }

    /** How many good turns it takes from here at most. */
    ghost function TurnsLeft(): (n: nat)
      requires receivedSize <= |file|
      reads this
      ensures 1 <= n <= |file| + 4
    {
      match state
      case Complete => 1
      case DataGet => |file| - receivedSize + 1
      case RangeRequest => |file| - receivedSize + 1
      case FilesizeGet => |file| - receivedSize + 2
      case NetworkConnect => |file| - receivedSize + 3
      case NetworkReconnect => |file| - receivedSize + 4
    }

    method Tell(e: Event)
      requires hasHandler && !e.OnData? && remainLen <= buffer.Length
      requires InStep(events, file, receivedSize, buffer[..remainLen])
      modifies `events
      ensures events == old(events) + [e] && InStep(events, file, receivedSize, buffer[..remainLen])
    {
      Told(events, file, receivedSize, buffer[..remainLen], e);
      events := events + [e];
    }

    /** What a turn in which data can be received does. Without data the connection is given up. With data
        the download is complete if and only if all of it is there; a handler gets the data at once. */
    twostate predicate DataStep(t: Turn, n: int)
      requires old(remainLen) <= rangeLength
      reads this
    {
      && (n <= 0 ==>
            && state == NetworkReconnect && receivedSize == old(receivedSize) && remainLen == old(remainLen)
            && events == old(events))
      && (n > 0 ==>
            && state == (if receivedSize >= fileSize then Complete else DataGet)
            && (!hasHandler ==>
                  receivedSize == old(receivedSize) && remainLen == old(remainLen) && events == old(events))
            && (hasHandler ==>
                  && receivedSize == old(receivedSize) + n
                  && remainLen == (if t.leaves <= old(remainLen) + n then t.leaves else old(remainLen) + n)
                  && |events| == |old(events)| + 1 && events[..|events| - 1] == old(events)
                  && events[|events| - 1].OnData? && |events[|events| - 1].data| == old(remainLen) + n))
    }

    /** Only the state, and perhaps the size and what was told about it, changed. */
    twostate predicate StillThere()
      reads this
    {
      receivedSize == old(receivedSize) && remainLen == old(remainLen) && serverAt == old(serverAt)
    }

    /** One turn of the loop. */
    method Step(t: Turn)
      requires Valid() && !isCompleted
      modifies this, buffer
      ensures Valid()
      ensures receivedSize >= old(receivedSize) && (fileSize == old(fileSize) || fileSize == |file|)
      ensures receivedSize - remainLen >= old(receivedSize) - old(remainLen)
      ensures isCompleted <==> old(state).Complete?
      ensures isCompleted && hasHandler ==> events == old(events) + [Finish]
      ensures old(state).NetworkConnect? ==>
                && state == (if t.connects then FilesizeGet else NetworkReconnect)
                && StillThere() && fileSize == old(fileSize)
      ensures old(state).NetworkReconnect? ==> state == NetworkConnect && StillThere() && fileSize == old(fileSize)
      ensures old(state).FilesizeGet? ==>
                && StillThere()
                && state == (if old(fileSize) == 0 && !t.tellsSize then NetworkReconnect else RangeRequest)
                && fileSize == (if old(fileSize) == 0 && t.tellsSize then |file| else old(fileSize))
                && events == old(events) + (if hasHandler && state.RangeRequest? then [OnFilesize(fileSize)] else [])
      ensures old(state).RangeRequest? && !t.accepts ==>
                state == NetworkReconnect && StillThere() && fileSize == old(fileSize)
      ensures old(state).DataGet? || (old(state).RangeRequest? && t.accepts) ==>
                fileSize == old(fileSize) && DataStep(t, old(Incoming(t)))
      ensures old(state).Complete? ==> StillThere() && fileSize == old(fileSize)
      ensures old(events) <= events
    {
      hide InStep, Incoming, DataStep;
      InStepFacts();
      match state
      case NetworkConnect =>
        state := if t.connects then FilesizeGet else NetworkReconnect;
      case FilesizeGet =>
        GetFilesize(t.tellsSize);
      case RangeRequest =>
        if !t.accepts {
          state := NetworkReconnect;
        } else {
          GetFirstData(t);
        }
      case DataGet =>
        GetData(t);
      case NetworkReconnect =>
        state := NetworkConnect;
      case Complete =>
        Finished();
    }

    method Finished()
      requires Valid() && state.Complete? && !isCompleted
      modifies `isCompleted, `events
      ensures Valid() && isCompleted && events == old(events) + if hasHandler then [Finish] else []
    {
      hide InStep;
      isCompleted := true;
      if hasHandler { Tell(Finish); }
    }

    /** A range request was accepted. */
    method GetFirstData(t: Turn)
      requires Valid() && state.RangeRequest? && !isCompleted && receivedSize <= |file|
      modifies this, buffer
      ensures Valid() && !isCompleted && fileSize == old(fileSize) && DataStep(t, old(Incoming(t)))
      ensures receivedSize >= old(receivedSize) && old(events) <= events
      ensures receivedSize - remainLen >= old(receivedSize) - old(remainLen)
    {
      hide InStep;
      serverAt := receivedSize;
      state := DataGet;
      GetData(t);
    }

    method GetFilesize(tellsSize: bool)
      requires Valid() && state.FilesizeGet? && !isCompleted
      modifies `state, `fileSize, `events
      ensures Valid() && !isCompleted
      ensures state == if old(fileSize) == 0 && !tellsSize then NetworkReconnect else RangeRequest
      ensures fileSize == if old(fileSize) == 0 && tellsSize then |file| else old(fileSize)
      ensures events == old(events) + if hasHandler && state.RangeRequest? then [OnFilesize(fileSize)] else []
    {
      hide InStep;
      if fileSize == 0 {
        if !tellsSize {
          state := NetworkReconnect;
          return;
        }
        fileSize := |file|;
      }
      if hasHandler { Tell(OnFilesize(fileSize)); }
      state := RangeRequest;
    }

    method GetData(t: Turn)
      requires Valid() && state.DataGet? && !isCompleted && receivedSize <= |file|
      modifies this, buffer
      ensures Valid() && !isCompleted && fileSize == old(fileSize) && DataStep(t, old(Incoming(t)))
      ensures receivedSize >= old(receivedSize) && old(events) <= events
      ensures receivedSize - remainLen >= old(receivedSize) - old(remainLen)
    {
      hide InStep, Continues;
      ghost var held := buffer[..remainLen];
      InStepFacts();
      var readSize := Received(t.delivers, rangeLength - remainLen, |file| - serverAt);
      if readSize <= 0 {
        state := NetworkReconnect;
        return;
      }
      ghost var data := held + file[serverAt..serverAt + readSize];
      Receive(readSize, held, data);
      if hasHandler {
        ContinuesWith(file, receivedSize, held, readSize);
        HandOver(readSize, t.leaves, held, data);
      } else {
        assert remainLen == 0;
      }
      if receivedSize >= fileSize { state := Complete; }
    }

    /** HTTPClient_Recv() after the `held` bytes. */
    method Receive(readSize: nat, ghost held: seq<Byte>, ghost data: seq<Byte>)
      requires remainLen + readSize < buffer.Length && serverAt + readSize <= |file| && buffer[..remainLen] == held
      requires data == held + file[serverAt..serverAt + readSize]
      modifies `serverAt, buffer
      ensures serverAt == old(serverAt) + readSize && buffer[..remainLen + readSize] == data
      ensures buffer[..remainLen] == held
    {
      forall i | 0 <= i < readSize { buffer[remainLen + i] := file[serverAt + i]; }
      serverAt := serverAt + readSize;
      assert buffer[..remainLen] == held;
    }

    lemma InStepFacts()
      requires Valid()
      ensures remainLen <= receivedSize <= |file|
    {}

    /** The handler gets what was left together with `readSize` new bytes, and leaves some. */
    method HandOver(readSize: nat, leaves: nat, ghost held: seq<Byte>, ghost data: seq<Byte>)
      requires hasHandler && remainLen == |held|
      requires InStep(events, file, receivedSize, held)
      requires |data| == remainLen + readSize <= buffer.Length && buffer[..|data|] == data
      requires Continues(file, receivedSize, held, data)
      modifies `receivedSize, `remainLen, `events, buffer
      ensures receivedSize == old(receivedSize) + readSize
      ensures remainLen == if leaves <= |data| then leaves else |data|
      ensures |events| == |old(events)| + 1 && events[..|events| - 1] == old(events)
      ensures events[|events| - 1] == OnData(data, old(receivedSize) - |held|, remainLen)
      ensures InStep(events, file, receivedSize, buffer[..remainLen])
      ensures Finish in events ==> Finish in old(events)
    {
      hide InStep, Continues, Accepted;
      InStepBounds(events, file, receivedSize, held);
      var dataLen := readSize + remainLen;
      var left := if leaves <= dataLen then leaves else dataLen;
      HandedOver(events, file, receivedSize, held, data, left);
      var e := OnData(buffer[..dataLen], receivedSize - remainLen, left);
      events := events + [e];
      MoveDown(dataLen - left, left, data);
      receivedSize := receivedSize + readSize;
      remainLen := left;
    }

    /** memmove() to the start of the buffer. */
    method MoveDown(from: nat, count: nat, ghost data: seq<Byte>)
      requires from + count == |data| <= buffer.Length && buffer[..|data|] == data
      modifies buffer
      ensures buffer[..count] == data[from..]
    {
      assert forall j :: 0 <= j < |data| ==> buffer[j] == data[j];
      forall i | 0 <= i < count { buffer[i] := buffer[from + i]; }
    }

    /** A good turn brings a download that can end nearer to its end. */
    method LivelyStep(t: Turn, ghost lively: bool)
      requires Valid() && !isCompleted && receivedSize <= |file|
      requires lively ==> hasHandler && file != [] && fileSize <= |file| && remainLen < rangeLength
      modifies this, buffer
      ensures Valid() && (fileSize == old(fileSize) || fileSize == |file|) && receivedSize <= |file|
      ensures lively && t.leaves < rangeLength ==> remainLen < rangeLength
      ensures lively && Good(t, rangeLength) ==> isCompleted || TurnsLeft() < old(TurnsLeft())
      ensures isCompleted && hasHandler ==> events == old(events) + [Finish]
      ensures old(events) <= events
    {
      hide InStep;
      Step(t);
      InStepFacts();
    }

    /** The whole download, as long as the outside allows; the turns end when time runs out. */
    method Run(turns: seq<Turn>)
      requires Valid() && !isCompleted && events == [] && receivedSize == 0
      modifies this, buffer
      ensures Valid() && (fileSize == old(fileSize) || fileSize == |file|)
      ensures hasHandler ==>
                |events| > 1 && events[0] == Start && events[|events| - 1] == if isCompleted then Finish else Fault
      ensures isCompleted && hasHandler ==> receivedSize >= fileSize
      ensures isCompleted && !hasHandler ==> fileSize == 0
      ensures isCompleted && hasHandler && fileSize == |file| ==> Accepted(events) + buffer[..remainLen] == file
      ensures hasHandler && file != [] && old(fileSize) <= |file| && old(remainLen) < rangeLength &&
              (forall t :: t in turns ==> t.leaves < rangeLength) && GoodAtEnd(turns, rangeLength) >= |file| + 4 ==>
                isCompleted
    {
      hide InStep, Faithful, Accepted;
      if hasHandler { Tell(Start); }
      ghost var lively := && hasHandler && file != [] && fileSize <= |file| && remainLen < rangeLength
                          && (forall t :: t in turns ==> t.leaves < rangeLength);
      ghost var calm := |turns| - GoodAtEnd(turns, rangeLength);
      InStepFacts();
      var i := 0;
      while i < |turns| && !isCompleted
        invariant i <= |turns| && Valid() && (fileSize == old(fileSize) || fileSize == |file|) && receivedSize <= |file|
        invariant hasHandler ==> events != [] && events[0] == Start
        invariant isCompleted && hasHandler ==> |events| > 1 && events[|events| - 1] == Finish
        invariant lively ==> fileSize <= |file| && remainLen < rangeLength
        invariant lively && !isCompleted && i > calm ==> TurnsLeft() <= |file| + 4 - (i - calm)
      {
        if lively {
          assert turns[i] in turns;
          assert calm <= i ==> Good(turns[i], rangeLength);
        }
        LivelyStep(turns[i], lively);
        i := i + 1;
      }
      if !isCompleted && hasHandler { Tell(Fault); }
      InStepFacts();
      if hasHandler && fileSize == |file| && receivedSize == |file| { AllThere(events, file, buffer[..remainLen]); }
    }
  }

  lemma InStepBounds(events: seq<Event>, file: seq<Byte>, at: nat, held: seq<Byte>)
    requires InStep(events, file, at, held)
    ensures |held| <= at <= |file|
  {}

  lemma AllThere(events: seq<Event>, file: seq<Byte>, held: seq<Byte>)
    requires InStep(events, file, |file|, held)
    ensures Accepted(events) + held == file
  {}
}
