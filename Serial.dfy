/** The serial side of the bridge: opening the port, the flag that keeps the
    poll loop going, the optional data callback, and what one or many poll
    cycles deliver to that callback. Port configuration, the poll request
    written each cycle, the settle delay and the executor are not modelled;
    each cycle's read is given as the characters it returned. */
module Serial {
  import opened Framing

  /** The outcome of a collaborator call that may throw. */
  datatype Outcome = Done | Failed(reason: string)

  /** The message of the exception thrown when the port does not open. */
  function OpenFailure(portName: string): (r: string)
    ensures |r| > |portName| && r[|r| - |portName|..] == portName
    ensures r[..|r| - |portName|] == "Failed to open port: "
  {
    "Failed to open port: " + portName
  }

  /** All reads of a run of poll cycles, in order. */
  function Concat(cycles: seq<string>): (r: string)
    ensures cycles != [] ==>
      |cycles[|cycles| - 1]| <= |r| && r[|r| - |cycles[|cycles| - 1]|..] == cycles[|cycles| - 1]
    ensures cycles == [] ==> r == []
  {
    if cycles == [] then [] else Concat(cycles[..|cycles| - 1]) + cycles[|cycles| - 1]
  }

  class SerialService {
    /** isConnected(): a port object exists and is open. */
    var portOpen: bool
    /** The volatile isReading flag of the poll loop. */
    var reading: bool
    /** Whether dataCallback is non-null. */
    var hasCallback: bool
    /** The pending line of the reading task started by the last connect. */
    var framer: LineFramer

    ghost predicate Valid()
      reads this, framer
    {
      framer.Valid()
    }

    constructor ()
      ensures Valid()
      ensures !portOpen && !reading && !hasCallback && framer.buffer == []
    {
      portOpen, reading, hasCallback := false, false, false;
      framer := new LineFramer();
    }

    /** connect: a port that does not open throws before reading starts;
        otherwise a new reading task starts with an empty pending line. */
    method Connect(portName: string, opens: bool) returns (r: Outcome)
      requires Valid() && !reading
      modifies this
      ensures Valid()
      ensures r == if opens then Done else Failed(OpenFailure(portName))
      ensures portOpen == opens
      ensures opens ==> reading && fresh(framer) && framer.buffer == []
      ensures !opens ==> reading == old(reading) && framer == old(framer)
      ensures hasCallback == old(hasCallback)
    {
      portOpen := opens;
      if !opens {
        r := Failed(OpenFailure(portName));
        return;
      }
      reading := true;
      framer := new LineFramer();
      r := Done;
    }

    /** disconnect: clears the flag, which ends the loop, and closes the port. */
    method Disconnect()
      modifies this
      ensures !reading && !portOpen
      ensures hasCallback == old(hasCallback) && framer == old(framer)
    {
      reading := false;
      portOpen := false;
    }

    /** isConnected: whether the last port opened and has not been closed. */
    method IsConnected() returns (b: bool)
      ensures b <==> portOpen
    {
      b := portOpen;
    }

    method SetDataCallback(present: bool)
      modifies this
      ensures hasCallback == present
      ensures reading == old(reading) && portOpen == old(portOpen) && framer == old(framer)
    {
      hasCallback := present;
    }

    /** One poll cycle whose read returned data (empty when nothing was read):
        the framed messages go to the callback if one is set and are
        discarded otherwise. A stopped loop does nothing. */
    method PollCycle(data: string) returns (delivered: seq<string>)
      requires Valid()
      modifies framer
      ensures Valid()
      ensures var f := Frame(old(framer.buffer), data);
        if reading then
          framer.buffer == f.pending && delivered == (if hasCallback then f.msgs else [])
        else
          framer.buffer == old(framer.buffer) && delivered == []
      ensures forall i :: 0 <= i < |delivered| ==> WellFormed(delivered[i])
    {
      delivered := [];
      if reading {
        var msgs := framer.Feed(data);
        if hasCallback {
          delivered := msgs;
        }
      }
    }

    /** The loop over successive poll cycles while the flag stays set: what
        reaches the callback is what one feed of all the reads together
        would frame. */
    method RunReadLoop(cycles: seq<string>) returns (delivered: seq<string>)
      requires Valid()
      modifies framer
      ensures Valid()
      ensures var f := Frame(old(framer.buffer), Concat(cycles));
        if reading then
          framer.buffer == f.pending && delivered == (if hasCallback then f.msgs else [])
        else
          framer.buffer == old(framer.buffer) && delivered == []
      ensures forall i :: 0 <= i < |delivered| ==> WellFormed(delivered[i])
    {
      ghost var start := framer.buffer;
      delivered := [];
      var n := 0;
      while n < |cycles|
        invariant 0 <= n <= |cycles|
        invariant Valid()
        invariant var f := Frame(start, Concat(cycles[..n]));
          if reading then
            framer.buffer == f.pending && delivered == (if hasCallback then f.msgs else [])
          else
            framer.buffer == start && delivered == []
        invariant forall i :: 0 <= i < |delivered| ==> WellFormed(delivered[i])
      {
        var got := PollCycle(cycles[n]);
        assert cycles[..n + 1][..n] == cycles[..n];
        FrameConcat(start, Concat(cycles[..n]), cycles[n]);
        delivered := delivered + got;
        n := n + 1;
      }
      assert cycles[..n] == cycles;
    }
  }
}
