/** The command handler as the program runs it: one object holding its state,
    updated in place by the accept loop and by the command loop of each
    connection. Every method is proved against the functions of module Session. */
module Server {
  import opened Wire
  import opened Device
  import opened Session

  /** The most bytes one recv call returns. */
  const RecvSize: nat := 1024

  class Bridge {
    var phase: Phase
    var samplingRateSet: bool
    var threadRunning: bool
    /** start() calls on the current connection's streaming thread object. */
    var starts: nat
    /** Every VIDIOC_S_FREQUENCY request made of the device, in order. */
    var requests: seq<FrequencyRequest>
    /** Every VIDIOC_S_FMT request made of the device, in order. */
    var formats: seq<FormatRequest>

    /** The handler's state as a value. */
    ghost function Snapshot(): State
      reads this
    {
      State(phase, Flags(samplingRateSet, threadRunning), starts, requests)
    }

    ghost predicate Valid()
      reads this
    {
      Consistent(Snapshot()) && formats == [SdrFormat]
    }

    /** Start-up: both flags down, the device opened and set to 8-bit unsigned
        SDR samples, the socket listening. */
    constructor ()
      ensures Valid()
      ensures Snapshot() == Initial && formats == [SdrFormat]
    {
      phase := Listening;
      samplingRateSet, threadRunning := false, false;
      starts := 0;
      requests := [];
      formats := [SdrFormat];
    }

    /** Accept a client, greet it with the banner, and make a fresh streaming
        thread object for it. */
    method Accept() returns (banner: seq<bv8>)
      requires Valid() && phase == Listening
      modifies this
      ensures Valid() && formats == old(formats)
      ensures Snapshot() == Session.Accept(old(Snapshot()))
      ensures banner == Handshake
    {
      phase := Connected;
      banner := Handshake;
      starts := 0;
    }

    /** Handle one block returned by recv. */
    method Receive(data: seq<bv8>)
      requires Valid() && phase == Connected && |data| <= RecvSize
      modifies this
      ensures Valid() && formats == old(formats)
      ensures Snapshot() == Session.Receive(old(Snapshot()), data)
    {
      ghost var before := Snapshot();
      ReceiveKeepsConsistent(before, data);
      if |data| == 0 {
        // the client disconnected: stop streaming, reset, join the thread
        threadRunning := false;
        samplingRateSet := false;
        if starts == 0 {
          phase := Halted(JoinUnstarted);
        } else {
          phase := Listening;
        }
        return;
      }
      if |data| < 5 {
        // reading byte 1, 2, 3 or 4 fails
        phase := Halted(Truncated(|data|));
        return;
      }
      var cmd := data[0];
      var val := BigEndian(data[1], data[2], data[3], data[4]);
      if cmd == CmdSetFreq {
        requests := requests + [FrequencyRequest(1, TunerRf, val)];
      } else if cmd == CmdSetSampleRate {
        requests := requests + [FrequencyRequest(0, TunerAdc, val)];
        samplingRateSet := true;
      } else if cmd in LoggedCodes {
        // gain mode, gain, frequency correction, AGC mode, gain index: only logged
      }
      // any other code is ignored
      if !threadRunning && samplingRateSet {
        threadRunning := true;
        starts := starts + 1;
      }
    }

    /** One pass of the accept loop: greet the client, then handle the blocks
        recv returns, in order, until the connection ends or the handler halts. */
    method ServeConnection(blocks: seq<seq<bv8>>) returns (banner: seq<bv8>)
      requires Valid() && phase == Listening
      requires forall i :: 0 <= i < |blocks| ==> |blocks[i]| <= RecvSize
      modifies this
      ensures Valid() && formats == old(formats)
      ensures banner == Handshake
      ensures Snapshot() == Feed(Session.Accept(old(Snapshot())), blocks)
    {
      banner := Accept();
      ghost var connected := Snapshot();
      var i := 0;
      while i < |blocks| && phase == Connected
        invariant 0 <= i <= |blocks|
        invariant Valid() && formats == old(formats)
        invariant Snapshot() == Feed(connected, blocks[..i])
      {
        assert blocks[..i + 1][..i] == blocks[..i];
        Receive(blocks[i]);
        i := i + 1;
      }
      if i < |blocks| {
        FeedStops(connected, blocks, i);
      } else {
        assert blocks[..i] == blocks;
      }
    }

    /** The accept loop: serve the given connections one after another, for as
        long as each returns the handler to accept. */
    method Serve(connections: seq<seq<seq<bv8>>>)
      requires Valid() && phase == Listening
      requires forall c, i :: 0 <= c < |connections| && 0 <= i < |connections[c]| ==> |connections[c][i]| <= RecvSize
      modifies this
      ensures Valid() && formats == old(formats)
      ensures Snapshot() == Session.Serve(old(Snapshot()), connections)
    {
      ghost var start := Snapshot();
      var n := 0;
      while n < |connections| && phase == Listening
        invariant 0 <= n <= |connections|
        invariant Valid() && formats == old(formats)
        invariant Snapshot() == Session.Serve(start, connections[..n])
      {
        assert connections[..n + 1][..n] == connections[..n];
        var _ := ServeConnection(connections[n]);
        n := n + 1;
      }
      if n < |connections| {
        ServeStops(start, connections, n);
      } else {
        assert connections[..n] == connections;
      }
    }
  }
}
