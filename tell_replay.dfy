/**
 * The staircase-server side of a session. `primeDatabase` (MR.py:198-201)
 * replays stored tells over the socket, each send followed by one receive; the
 * script defines it but its start-up (MR.py:319-344) never calls it, so the
 * tells reloaded at a restart are only counted. The shutdown path (MR.py:637-641,
 * 984-988, 1226-1235) flushes the tells, asks the server to exit and signals
 * its process. The socket is a log of what was sent and received.
 */
module TellReplay {
  import opened SessionFiles
  import opened Wrappers

  /** Messages the script sends to the staircase server. */
  datatype Message = TellMessage(tell: Tell) | ExitMessage

  /** One socket operation, in the order it happened. */
  datatype SocketEvent = Sent(msg: Message) | Received

  /** The signals sent to the server's child process. */
  datatype Signal = Kill | Terminate

  /** The socket to the staircase server. */
  class Socket {
    var log: seq<SocketEvent>

    constructor ()
      ensures log == []
    {
      log := [];
    }

    /** `SocketSendMessage(socket, m)`. */
    method Send(m: Message)
      modifies this
      ensures log == old(log) + [Sent(m)]
    {
      log := log + [Sent(m)];
    }

    /** `SocketRecvMessage(socket)`; the reply's content is not modelled. */
    method Receive()
      modifies this
      ensures log == old(log) + [Received]
    {
      log := log + [Received];
    }
  }

  /** The server's child process `pAEPsych`, as the signals it has received. */
  class ServerProcess {
    var signals: seq<Signal>

    constructor ()
      ensures signals == []
    {
      signals := [];
    }

    /** `pAEPsych.kill()`. */
    method SendKill()
      modifies this
      ensures signals == old(signals) + [Kill]
    {
      signals := signals + [Kill];
    }

    /** `pAEPsych.terminate()`. */
    method SendTerminate()
      modifies this
      ensures signals == old(signals) + [Terminate]
    {
      signals := signals + [Terminate];
    }
  }

  /** Reference definition of the socket traffic of priming: send, receive, for each tell. */
  function PrimingEvents(data: seq<Tell>): seq<SocketEvent>
  {
    if data == [] then []
    else PrimingEvents(data[..|data| - 1]) + [Sent(TellMessage(data[|data| - 1])), Received]
  }

  /** The tells a socket log carries, in the order they were sent. */
  function SentTells(events: seq<SocketEvent>): seq<Tell>
  {
    if events == [] then []
    else
      var last := events[|events| - 1];
      SentTells(events[..|events| - 1]) + (if last.Sent? && last.msg.TellMessage? then [last.msg.tell] else [])
  }

  /** Number of receives in a socket log. */
  function Receives(events: seq<SocketEvent>): nat
  {
    if events == [] then 0
    else Receives(events[..|events| - 1]) + (if events[|events| - 1] == Received then 1 else 0)
  }

  /** `SentTells` and `Receives` distribute over concatenation. */
  lemma {:induction false} CountsAppend(a: seq<SocketEvent>, b: seq<SocketEvent>)
    ensures SentTells(a + b) == SentTells(a) + SentTells(b)
    ensures Receives(a + b) == Receives(a) + Receives(b)
    decreases |b|
  {
    if b == [] {
      assert a + b == a;
    } else {
      var b' := b[..|b| - 1];
      assert (a + b)[..|a + b| - 1] == a + b';
      CountsAppend(a, b');
    }
  }

  /** One send-receive pair carries one tell and one receive. */
  lemma PairCounts(t: Tell)
    ensures SentTells([Sent(TellMessage(t)), Received]) == [t]
    ensures Receives([Sent(TellMessage(t)), Received]) == 1
  {
    var one := [Sent(TellMessage(t))];
    var pair := one + [Received];
    assert pair[..|pair| - 1] == one;
    assert one[..|one| - 1] == [];
    assert SentTells(one) == [t];
    assert Receives(one) == 0;
    assert [Sent(TellMessage(t)), Received] == pair;
  }

  /**
   * Priming sends exactly the stored tells, in order, with one receive per
   * tell, alternating send and receive; an empty list sends nothing.
   */
  lemma {:induction false} PrimingReplaysInOrder(data: seq<Tell>)
    ensures SentTells(PrimingEvents(data)) == data
    ensures Receives(PrimingEvents(data)) == |data|
    ensures |PrimingEvents(data)| == 2 * |data|
    ensures forall i :: 0 <= i < |data| ==>
              PrimingEvents(data)[2 * i] == Sent(TellMessage(data[i])) && PrimingEvents(data)[2 * i + 1] == Received
    decreases |data|
  {
    if data != [] {
      var init := data[..|data| - 1];
      var pair := [Sent(TellMessage(data[|data| - 1])), Received];
      PrimingReplaysInOrder(init);
      CountsAppend(PrimingEvents(init), pair);
      PairCounts(data[|data| - 1]);
      assert init + [data[|data| - 1]] == data;
      forall i | 0 <= i < |data|
        ensures PrimingEvents(data)[2 * i] == Sent(TellMessage(data[i]))
        ensures PrimingEvents(data)[2 * i + 1] == Received
      {
        if i < |init| {
          assert data[i] == init[i];
        }
      }
    }
  }

  /** `primeDatabase(data, socket)`: one send and one receive per stored tell, in order. */
  method PrimeDatabase(data: seq<Tell>, socket: Socket)
    modifies socket
    ensures socket.log == old(socket.log) + PrimingEvents(data)
  {
    for i := 0 to |data|
      invariant socket.log == old(socket.log) + PrimingEvents(data[..i])
    {
      socket.Send(TellMessage(data[i]));
      socket.Receive();
      assert data[..i + 1][..i] == data[..i];
    }
    assert data[..|data|] == data;
  }

  /**
   * The quit and end-of-experiment path: `writeJSON(tellContent, tellFilename)`,
   * `tellContent = []`, `SendExitMessage`, `kill()` then `terminate()`.
   */
  method Shutdown(fs: FileSystem, socket: Socket, server: ServerProcess, tellContent: seq<Tell>, tellFilename: string)
    returns (cleared: seq<Tell>)
    modifies fs, socket, server
    ensures fs.files == WriteTells(old(fs.files), tellContent, tellFilename)
    ensures socket.log == old(socket.log) + [Sent(ExitMessage)]
    ensures server.signals == old(server.signals) + [Kill, Terminate]
    ensures cleared == []
  {
    fs.WriteJson(tellContent, tellFilename);
    cleared := [];
    socket.Send(ExitMessage);
    server.SendKill();
    server.SendTerminate();
  }

  /**
   * The start-up as written (MR.py:319-344): the stale files are rotated and
   * the reloaded tells are only counted; nothing is sent to the server.
   */
  method StartUp(fs: FileSystem, socket: Socket, dir: string, fileName: string, stamp: string, continueIfData: bool)
    returns (r: Result<seq<Tell>, LoadError>, restarts: nat)
    modifies fs
    ensures var spec := Rotate(old(fs.files), dir, fileName, stamp, continueIfData);
            (spec.Err? ==> r == Err(spec.error)) &&
            (spec.Ok? ==> r == Ok(spec.value.tellContent) && restarts == |spec.value.tellContent|)
    ensures var spec := Rotate(old(fs.files), dir, fileName, stamp, continueIfData);
            (spec.Err? ==> fs.files == old(fs.files)) && (spec.Ok? ==> fs.files == spec.value.files)
    ensures socket.log == old(socket.log)
  {
    r, restarts := fs.RotateStaleFiles(dir, fileName, stamp, continueIfData);
  }

  /** The start-up with the reloaded tells replayed to the server by `primeDatabase`. */
  method StartUpIntended(fs: FileSystem, socket: Socket, dir: string, fileName: string, stamp: string, continueIfData: bool)
    returns (r: Result<seq<Tell>, LoadError>, restarts: nat)
    modifies fs, socket
    ensures var spec := Rotate(old(fs.files), dir, fileName, stamp, continueIfData);
            (spec.Err? ==> r == Err(spec.error)) &&
            (spec.Ok? ==> r == Ok(spec.value.tellContent) && restarts == |spec.value.tellContent|)
    ensures var spec := Rotate(old(fs.files), dir, fileName, stamp, continueIfData);
            (spec.Err? ==> fs.files == old(fs.files)) && (spec.Ok? ==> fs.files == spec.value.files)
    ensures r.Ok? ==> socket.log == old(socket.log) + PrimingEvents(r.value)
    ensures r.Err? ==> socket.log == old(socket.log)
  {
    r, restarts := fs.RotateStaleFiles(dir, fileName, stamp, continueIfData);
    if r.Ok? {
      PrimeDatabase(r.value, socket);
    }
  }

  /**
   * Restart scenario for the intended start-up: tells flushed at shutdown,
   * with the stale database still present, are replayed exactly and in order.
   */
  lemma RestartPrimesFlushedTells(files: Files, dir: string, fileName: string, stamp: string, tells: seq<Tell>)
    requires DatabaseName(fileName) in files && |tells| > 0
    ensures var rot := Rotate(WriteTells(files, tells, TellFileName(dir, fileName)), dir, fileName, stamp, true);
            rot.Ok? && SentTells(PrimingEvents(rot.value.tellContent)) == tells
  {
    RestartReloadsFlushedTells(files, dir, fileName, stamp, tells);
    PrimingReplaysInOrder(tells);
  }
}
