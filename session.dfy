/** The per-connection state machine of the bridge, on values: the two flags
    that gate streaming, the start count of the current connection's streaming
    thread, and the frequency requests made of the device so far. The class in
    module Server updates the same state in place and is proved against these
    functions. */
module Session {
  import opened Wire
  import opened Device

  /** sampling_rate_set (local to the command handler) and thread_running (a
      module global read by the streaming thread). */
  datatype Flags = Flags(samplingRateSet: bool, threadRunning: bool)

  const Idle: Flags := Flags(false, false)

  /** The exceptions the command handler does not catch; each ends the process.
      Truncated: a block of 1 to 4 bytes, indexed past its end (IndexError).
      JoinUnstarted: a disconnect before streaming ever started, which joins a
      thread that was never started (RuntimeError). */
  datatype Fault = Truncated(length: nat) | JoinUnstarted

  /** Waiting in accept, serving one client, or stopped by a fault. */
  datatype Phase = Listening | Connected | Halted(fault: Fault)

  /** starts counts the calls of start() on the current connection's streaming
      thread object; requests lists every VIDIOC_S_FREQUENCY request, in order. */
  datatype State = State(phase: Phase, flags: Flags, starts: nat, requests: seq<FrequencyRequest>)

  /** After the device is opened and its format selected, before the first accept. */
  const Initial: State := State(Listening, Idle, 0, [])

  /** The invariant of the command handler: no thread object is ever started
      twice; between connections both flags are down; during a connection
      streaming runs exactly when a sample rate has been set, and then its
      thread has been started exactly once. */
  predicate Consistent(s: State)
  {
    && s.starts <= 1
    && (s.phase == Listening ==> s.flags == Idle)
    && (s.phase == Connected ==>
          && s.flags.threadRunning == s.flags.samplingRateSet
          && s.starts == (if s.flags.threadRunning then 1 else 0))
  }

  /** The effect of one decoded command. */
  datatype Reaction = Reaction(flags: Flags, request: Option<FrequencyRequest>, start: bool)

  /** Dispatch one command, then check the streaming gate: SET_SAMPLE_RATE raises
      sampling_rate_set, and the thread starts if it is not running and a rate is set. */
  function React(f: Flags, c: Command): (r: Reaction)
    ensures r.request == RequestFor(c)
    ensures r.flags.samplingRateSet <==> f.samplingRateSet || c.code == CmdSetSampleRate
    ensures r.flags.threadRunning <==> f.threadRunning || r.flags.samplingRateSet
    ensures r.start <==> r.flags.threadRunning && !f.threadRunning
  {
    var rateSet := if c.code == CmdSetSampleRate then true else f.samplingRateSet;
    if !f.threadRunning && rateSet then Reaction(Flags(rateSet, true), RequestFor(c), true)
    else Reaction(Flags(rateSet, f.threadRunning), RequestFor(c), false)
  }

  /** The requests an optional request contributes to the log. */
  function Emitted(o: Option<FrequencyRequest>): seq<FrequencyRequest>
  {
    match o
    case None => []
    case Some(q) => [q]
  }

  /** A new client: a fresh, unstarted streaming thread object. */
  function Accept(s: State): (t: State)
    requires s.phase == Listening
    ensures t.phase == Connected && t.starts == 0 && t.flags == s.flags && t.requests == s.requests
  {
    s.(phase := Connected, starts := 0)
  }

  /** The client went away: both flags drop, then the thread is joined, which
      fails if it was never started. */
  function Disconnect(s: State): (t: State)
    ensures t.flags == Idle
    ensures t.phase == Listening <==> s.starts > 0
    ensures t.phase != Listening ==> t.phase == Halted(JoinUnstarted)
    ensures t.requests == s.requests && t.starts == s.starts
  {
    s.(phase := if s.starts > 0 then Listening else Halted(JoinUnstarted), flags := Idle)
  }

  /** One block returned by recv: empty ends the connection, fewer than five
      bytes halt the handler, otherwise the first frame is decoded and handled. */
  function Receive(s: State, data: seq<bv8>): (t: State)
    requires s.phase == Connected
    ensures t.phase == Connected <==> |data| >= 5
    ensures |t.requests| >= |s.requests| && t.requests[..|s.requests|] == s.requests
  {
    if |data| == 0 then Disconnect(s)
    else
      match DecodeFrame(data)
      case Failure(e) => s.(phase := Halted(Truncated(e.length)))
      case Success(c) =>
        var r := React(s.flags, c);
        s.(flags := r.flags,
           starts := if r.start then s.starts + 1 else s.starts,
           requests := s.requests + Emitted(r.request))
  }

  /** The state after a connection has received the given blocks in order;
      once the connection has ended, later blocks are never read. */
  function Feed(s: State, blocks: seq<seq<bv8>>): (t: State)
    ensures s.phase != Connected ==> t == s
    ensures s.requests <= t.requests
    decreases |blocks|
  {
    if blocks == [] then s
    else
      var t := Feed(s, blocks[..|blocks| - 1]);
      if t.phase == Connected then Receive(t, blocks[|blocks| - 1]) else t
  }

  /** The accept loop: each listed connection is accepted and fed its blocks,
      as long as the previous one has returned the handler to accept. */
  function Serve(s: State, connections: seq<seq<seq<bv8>>>): (t: State)
    ensures s.phase != Listening ==> t == s
    ensures s.requests <= t.requests
    decreases |connections|
  {
    if connections == [] then s
    else
      var t := Serve(s, connections[..|connections| - 1]);
      if t.phase == Listening then Feed(Accept(t), connections[|connections| - 1]) else t
  }

  /** Every block holds at least one whole frame. */
  predicate FullFrames(blocks: seq<seq<bv8>>)
  {
    forall i :: 0 <= i < |blocks| ==> |blocks[i]| >= 5
  }

  /** Some block is a SET_SAMPLE_RATE command. */
  predicate HasSampleRate(blocks: seq<seq<bv8>>)
  {
    exists i :: 0 <= i < |blocks| && |blocks[i]| > 0 && blocks[i][0] == CmdSetSampleRate
  }

  /** Reference definition of the device requests of a run of full frames: one
      per block, read off that block's command alone. */
  function RequestsOf(blocks: seq<seq<bv8>>): seq<FrequencyRequest>
    requires FullFrames(blocks)
    decreases |blocks|
  {
    if blocks == [] then []
    else RequestsOf(blocks[..|blocks| - 1]) + Emitted(RequestFor(DecodeFrame(blocks[|blocks| - 1]).value))
  }

  // ---------------------------------------------------------------------------
  // One step

  /** Accepting a client from a consistent state gives a consistent connection
      with both flags down and the thread not started. */
  lemma AcceptKeepsConsistent(s: State)
    requires Consistent(s) && s.phase == Listening
    ensures Consistent(Accept(s))
    ensures Accept(s).flags == Idle && Accept(s).starts == 0
  {
  }

  /** Every received block keeps the invariant; in particular the thread is
      never started twice. */
  lemma ReceiveKeepsConsistent(s: State, data: seq<bv8>)
    requires Consistent(s) && s.phase == Connected
    ensures Consistent(Receive(s, data))
  {
  }

  /** Bytes after the fifth in a block change nothing. */
  lemma ReceiveIgnoresTail(s: State, data: seq<bv8>)
    requires s.phase == Connected && |data| >= 5
    ensures Receive(s, data) == Receive(s, data[..5])
  {
  }

  /** SET_FREQ makes exactly one request, tuner 1, RF, at the decoded value, and
      changes nothing else. */
  lemma ReceiveSetFreq(s: State, data: seq<bv8>)
    requires Consistent(s) && s.phase == Connected
    requires |data| >= 5 && data[0] == CmdSetFreq
    ensures Receive(s, data)
         == s.(requests := s.requests + [FrequencyRequest(1, TunerRf, BigEndian(data[1], data[2], data[3], data[4]))])
  {
  }

  /** SET_SAMPLE_RATE makes exactly one request, tuner 0, ADC, at the decoded
      value, sets the sample rate flag, and leaves streaming running with its
      thread started once: it starts now exactly when no rate was set before. */
  lemma ReceiveSetSampleRate(s: State, data: seq<bv8>)
    requires Consistent(s) && s.phase == Connected
    requires |data| >= 5 && data[0] == CmdSetSampleRate
    ensures Receive(s, data)
         == s.(flags := Flags(true, true), starts := 1,
               requests := s.requests + [FrequencyRequest(0, TunerAdc, BigEndian(data[1], data[2], data[3], data[4]))])
    ensures Receive(s, data).starts == s.starts + 1 <==> !s.flags.samplingRateSet
  {
  }

  /** The logged gain codes and every unknown code leave the state exactly as it was. */
  lemma ReceiveOtherCode(s: State, data: seq<bv8>)
    requires Consistent(s) && s.phase == Connected
    requires |data| >= 5 && data[0] != CmdSetFreq && data[0] != CmdSetSampleRate
    ensures Receive(s, data) == s
  {
  }

  /** A block of one to four bytes halts the handler and changes nothing else. */
  lemma ReceiveShortBlock(s: State, data: seq<bv8>)
    requires s.phase == Connected && 0 < |data| < 5
    ensures Receive(s, data) == s.(phase := Halted(Truncated(|data|)))
  {
  }

  /** An empty block drops both flags; the handler goes back to accept exactly
      when streaming had been started, and halts otherwise. */
  lemma ReceiveDisconnect(s: State)
    requires Consistent(s) && s.phase == Connected
    ensures Receive(s, []) == s.(flags := Idle, phase := if s.flags.threadRunning then Listening else Halted(JoinUnstarted))
  {
  }

  // ---------------------------------------------------------------------------
  // Runs of blocks

  /** Any prefix of whole frames is whole frames. */
  lemma FullFramesPrefix(blocks: seq<seq<bv8>>, k: nat)
    requires FullFrames(blocks) && k <= |blocks|
    ensures FullFrames(blocks[..k])
  {
  }

  /** Whether a run holds a SET_SAMPLE_RATE, by its last block. */
  lemma HasSampleRateSnoc(blocks: seq<seq<bv8>>)
    requires blocks != []
    ensures var n := |blocks| - 1;
      (HasSampleRate(blocks) <==> HasSampleRate(blocks[..n]) || (|blocks[n]| > 0 && blocks[n][0] == CmdSetSampleRate))
  {
  }

  /** Feeding blocks keeps the invariant. */
  lemma {:induction false} FeedKeepsConsistent(s: State, blocks: seq<seq<bv8>>)
    requires Consistent(s)
    ensures Consistent(Feed(s, blocks))
    decreases |blocks|
  {
    if blocks != [] {
      var t := Feed(s, blocks[..|blocks| - 1]);
      FeedKeepsConsistent(s, blocks[..|blocks| - 1]);
      if t.phase == Connected {
        ReceiveKeepsConsistent(t, blocks[|blocks| - 1]);
      }
    }
  }

  /** Once a connection has ended, the blocks after that point are not read. */
  lemma {:induction false} FeedStops(s: State, blocks: seq<seq<bv8>>, k: nat)
    requires k <= |blocks| && Feed(s, blocks[..k]).phase != Connected
    ensures Feed(s, blocks) == Feed(s, blocks[..k])
    decreases |blocks| - k
  {
    if k < |blocks| {
      assert blocks[..k + 1][..k] == blocks[..k];
      FeedStops(s, blocks, k + 1);
    } else {
      assert blocks[..k] == blocks;
    }
  }

  /** Once the handler has left accept for good (halted, or stuck in a
      connection that never ended), later connections are never accepted. */
  lemma {:induction false} ServeStops(s: State, connections: seq<seq<seq<bv8>>>, k: nat)
    requires k <= |connections| && Serve(s, connections[..k]).phase != Listening
    ensures Serve(s, connections) == Serve(s, connections[..k])
    decreases |connections| - k
  {
    if k < |connections| {
      assert connections[..k + 1][..k] == connections[..k];
      ServeStops(s, connections, k + 1);
    } else {
      assert connections[..k] == connections;
    }
  }

  /** On whole frames a connection stays open, the sample rate flag is up once
      any SET_SAMPLE_RATE has arrived, streaming runs exactly then, and the
      device requests are those the commands name, in order. */
  lemma {:induction false} FeedFullFrames(s: State, blocks: seq<seq<bv8>>)
    requires Consistent(s) && s.phase == Connected && FullFrames(blocks)
    ensures Feed(s, blocks).phase == Connected
    ensures Consistent(Feed(s, blocks))
    ensures Feed(s, blocks).flags.samplingRateSet == (s.flags.samplingRateSet || HasSampleRate(blocks))
    ensures Feed(s, blocks).requests == s.requests + RequestsOf(blocks)
    decreases |blocks|
  {
    if blocks != [] {
      var n := |blocks| - 1;
      var prefix := blocks[..n];
      FullFramesPrefix(blocks, n);
      FeedFullFrames(s, prefix);
      ReceiveKeepsConsistent(Feed(s, prefix), blocks[n]);
      HasSampleRateSnoc(blocks);
    }
  }

  /** Streaming starts at most once per connection, and exactly when the client
      has sent at least one SET_SAMPLE_RATE. */
  lemma {:induction false} StreamingStartsOnce(s: State, blocks: seq<seq<bv8>>)
    requires Consistent(s) && s.phase == Listening && FullFrames(blocks)
    ensures Feed(Accept(s), blocks).starts == (if HasSampleRate(blocks) then 1 else 0)
    ensures Feed(Accept(s), blocks).flags.threadRunning == HasSampleRate(blocks)
  {
    AcceptKeepsConsistent(s);
    FeedFullFrames(Accept(s), blocks);
  }

  /** The start happens on the block of the first SET_SAMPLE_RATE and on no
      other block: never before one, never again after it. */
  lemma {:induction false} StreamingStartsAtFirstSampleRate(s: State, blocks: seq<seq<bv8>>, k: nat)
    requires Consistent(s) && s.phase == Listening && FullFrames(blocks) && k < |blocks|
    ensures var before := Feed(Accept(s), blocks[..k]).starts;
            var after := Feed(Accept(s), blocks[..k + 1]).starts;
            (after == before + 1 <==> blocks[k][0] == CmdSetSampleRate && !HasSampleRate(blocks[..k]))
            && (after == before || after == before + 1)
  {
    var prefix, longer := blocks[..k], blocks[..k + 1];
    FullFramesPrefix(blocks, k);
    FullFramesPrefix(blocks, k + 1);
    StreamingStartsOnce(s, prefix);
    StreamingStartsOnce(s, longer);
    assert longer[..k] == prefix;
    HasSampleRateSnoc(longer);
  }

  /** A whole connection: whole frames, then the client disconnects. Both flags
      are down afterwards, the requests are those of the commands, and the
      handler is back in accept if and only if a sample rate was ever set. */
  lemma {:induction false} ConnectionEnds(s: State, blocks: seq<seq<bv8>>)
    requires Consistent(s) && s.phase == Listening && FullFrames(blocks)
    ensures var t := Feed(Accept(s), blocks + [[]]);
            && t.flags == Idle
            && t.requests == s.requests + RequestsOf(blocks)
            && (t.phase == Listening <==> HasSampleRate(blocks))
            && (t.phase != Listening ==> t.phase == Halted(JoinUnstarted))
  {
    var all := blocks + [[]];
    assert all[..|all| - 1] == blocks;
    AcceptKeepsConsistent(s);
    FeedFullFrames(Accept(s), blocks);
    StreamingStartsOnce(s, blocks);
  }

  /** The accept loop keeps the invariant: in particular both flags are down
      whenever the next client is accepted. */
  lemma {:induction false} ServeKeepsConsistent(s: State, connections: seq<seq<seq<bv8>>>)
    requires Consistent(s)
    ensures Consistent(Serve(s, connections))
    decreases |connections|
  {
    if connections != [] {
      var t := Serve(s, connections[..|connections| - 1]);
      ServeKeepsConsistent(s, connections[..|connections| - 1]);
      if t.phase == Listening {
        AcceptKeepsConsistent(t);
        FeedKeepsConsistent(Accept(t), connections[|connections| - 1]);
      }
    }
  }
}
