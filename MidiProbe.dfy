// A model of the Minis MIDI port-enumeration probe.
//
// The probe owns a handle to the MIDI subsystem, a background polling loop
// that publishes the current list of input-port names into a shared slot,
// and a per-instance cache that readers refresh opportunistically.  The
// polling thread and the lock are abstracted away: one pass of the polling
// loop is an explicit call to PublishIteration, and the outcome of the
// reader's try-lock is a boolean argument of PortCount.  The subsystem's
// ports are given as a sequence of names, index i holding the name the
// subsystem reports for port i.

module Minis {

  datatype Option<T> = None | Some(value: T)

  /** The for loop of the polling thread that asks the subsystem for the
      name of each port, in index order 0..count-1, and appends it to a
      fresh list. */
  method CollectPortNames(ports: seq<string>) returns (names: seq<string>)
    ensures |names| == |ports|
    ensures forall i :: 0 <= i < |ports| ==> names[i] == ports[i]
  {
    names := [];
    var n := 0;
    while n < |ports|
      invariant 0 <= n <= |ports|
      invariant names == ports[..n]
    {
      names := names + [ports[n]];
      n := n + 1;
    }
  }

  class MidiProbe {
    // The native handle: null, or present with an "ok" flag.
    var handleNull: bool
    var handleOk: bool
    // The flag the polling loop tests before each pass.
    var runThread: bool
    // The published snapshot.  The source keeps this pair in static fields
    // shared by every probe; here one probe owns the one slot.
    var portCount: int
    var portNames: seq<string>
    // The reader-side cache that PortCount refreshes and GetPortName reads.
    var localPortCount: int
    var localPortNames: seq<string>
    // How many times the handle has been released to the subsystem.
    ghost var frees: nat

    /** The test the source repeats before touching the handle:
        not null and reported ok. */
    predicate HandleValid()
      reads this`handleNull, this`handleOk
    {
      !handleNull && handleOk
    }

    /** The probe's invariant.  Each count agrees with the length of its
        list; a probe whose handle could not be acquired has no polling
        loop and therefore never sees a port; a running probe's handle is
        either valid or has been freed, and it has been freed exactly once
        once it is null. */
    ghost predicate Valid()
      reads this
    {
      portCount == |portNames| &&
      localPortCount == |localPortNames| &&
      (!runThread ==> !HandleValid() && portNames == [] && localPortNames == []) &&
      (runThread && !handleNull ==> handleOk) &&
      frees == (if runThread && handleNull then 1 else 0)
    }

    /** Acquires the handle (its outcome is given: whether the subsystem
        returned null, and whether it reported ok).  On failure the
        constructor returns early and the polling loop is never started;
        on success the run flag is raised. */
    constructor (acquiredNull: bool, acquiredOk: bool)
      ensures Valid()
      ensures handleNull == acquiredNull && handleOk == acquiredOk
      ensures runThread == (!acquiredNull && acquiredOk)
      ensures portCount == 0 && portNames == []
      ensures localPortCount == 0 && localPortNames == []
      ensures frees == 0
    {
      handleNull := acquiredNull;
      handleOk := acquiredOk;
      portCount := 0;
      portNames := [];
      localPortCount := 0;
      localPortNames := [];
      frees := 0;
      if acquiredNull || !acquiredOk {
        // Early return: the polling loop is not started.
        runThread := false;
      } else {
        runThread := true;
      }
    }

    /** One pass of the polling loop: if the run flag is still raised, read
        the subsystem's port count and names into a fresh list, then
        replace the shared count and the shared list together. */
    method PublishIteration(subsystemNames: seq<string>)
      requires Valid()
      requires runThread ==> !handleNull
      modifies this`portCount, this`portNames
      ensures Valid()
      ensures old(runThread) ==> portCount == |subsystemNames| && portNames == subsystemNames
      ensures !old(runThread) ==> portCount == old(portCount) && portNames == old(portNames)
    {
      if runThread {
        var count := |subsystemNames|;
        var names := CollectPortNames(subsystemNames);
        portCount, portNames := count, names;
      }
    }

    /** The PortCount getter.  When the try-lock succeeds, both halves of
        the shared snapshot are copied into the local cache; when it fails,
        the cache is left as it was.  Either way the cached count is
        returned, and it always agrees with the cached list. */
    method PortCount(lockAcquired: bool) returns (count: int)
      requires Valid()
      modifies this`localPortCount, this`localPortNames
      ensures Valid()
      ensures lockAcquired ==> localPortCount == old(portCount) && localPortNames == old(portNames)
      ensures !lockAcquired ==> localPortCount == old(localPortCount) && localPortNames == old(localPortNames)
      ensures count == localPortCount == |localPortNames|
      ensures !runThread ==> count == 0
      // A caller that indexes below the count it was just given finds a
      // name at every index, and none at the count itself.
      ensures HandleValid() ==> GetPortName(count) == None
      ensures HandleValid() ==> forall n :: 0 <= n < count ==> GetPortName(n) == Some(localPortNames[n])
    {
      if lockAcquired {
        localPortCount := portCount;
        localPortNames := portNames;
      }
      count := localPortCount;
    }

    /** Name lookup in the local cache only: no name when the handle is
        null or not ok, or when the index is past the cached list. */
    function GetPortName(portNumber: int): (r: Option<string>)
      reads this`handleNull, this`handleOk, this`localPortNames
      requires HandleValid() ==> 0 <= portNumber
      ensures r.Some? <==> HandleValid() && portNumber < |localPortNames|
      ensures r.Some? ==> r.value == localPortNames[portNumber]
    {
      if !HandleValid() then None
      else if portNumber >= |localPortNames| then None
      else Some(localPortNames[portNumber])
    }

    /** Releases a valid handle to the subsystem and nulls it; on a null or
        not-ok handle it does nothing, so a second call is a no-op.
        (The source's finalizer, which stays armed unless a Dispose call
        freed the handle, also lowers the run flag, joins the thread and
        releases a valid handle.) */
    method Dispose()
      requires Valid()
      modifies this`handleNull, this`frees
      ensures Valid()
      ensures !HandleValid()
      ensures old(HandleValid()) ==> handleNull && frees == old(frees) + 1
      ensures !old(HandleValid()) ==> handleNull == old(handleNull) && frees == old(frees)
    {
      if handleNull || !handleOk {
        return;
      }
      frees := frees + 1;
      handleNull := true;
    }
  }

  /** Subsystem reports two ports; after one polling pass a reader with the
      lock sees both, in order, and nothing at index 2. */
  method TwoPortScenario() returns (count: int, first: Option<string>, second: Option<string>, third: Option<string>)
    ensures count == 2
    ensures first == Some("SynthA") && second == Some("ControllerB") && third == None
  {
    var probe := new MidiProbe(false, true);
    probe.PublishIteration(["SynthA", "ControllerB"]);
    count := probe.PortCount(true);
    first := probe.GetPortName(0);
    second := probe.GetPortName(1);
    third := probe.GetPortName(2);
  }

  /** A device is unplugged: the reader first loses the try-lock race and
      keeps its stale cache (one port, "X"), then wins it and sees no
      ports. */
  method UnplugScenario(lockAtFirstRead: bool)
    returns (count1: int, name1: Option<string>, count2: int, name2: Option<string>, count3: int, name3: Option<string>)
    ensures count1 == (if lockAtFirstRead then 1 else 0)
    ensures name1 == (if lockAtFirstRead then Some("X") else None)
    ensures count2 == count1 && name2 == name1
    ensures count3 == 0 && name3 == None
  {
    var probe := new MidiProbe(false, true);
    probe.PublishIteration(["X"]);
    count1 := probe.PortCount(lockAtFirstRead);
    name1 := probe.GetPortName(0);
    probe.PublishIteration([]);
    count2 := probe.PortCount(false);
    name2 := probe.GetPortName(0);
    count3 := probe.PortCount(true);
    name3 := probe.GetPortName(0);
  }

  /** When the handle cannot be acquired, no polling pass ever publishes,
      whatever the subsystem reports: the count stays 0 and no index has a
      name, before and after Dispose.  The index may be negative: the
      handle test comes before the list is indexed. */
  method FailedAcquisitionScenario(acquiredNull: bool, acquiredOk: bool, ports: seq<string>,
                                   lockAcquired: bool, portNumber: int)
    returns (count1: int, name1: Option<string>, count2: int, name2: Option<string>)
    requires acquiredNull || !acquiredOk
    ensures count1 == 0 && name1 == None
    ensures count2 == 0 && name2 == None
  {
    var probe := new MidiProbe(acquiredNull, acquiredOk);
    probe.PublishIteration(ports);
    count1 := probe.PortCount(lockAcquired);
    name1 := probe.GetPortName(portNumber);
    probe.Dispose();
    assert probe.frees == 0;
    probe.PublishIteration(ports);
    count2 := probe.PortCount(lockAcquired);
    name2 := probe.GetPortName(portNumber);
  }

  /** Dispose twice on a working probe releases the handle once.  PortCount
      does not look at the handle, so it still reports the cached count,
      while every name lookup now yields nothing. */
  method DisposeTwiceScenario(ports: seq<string>, portNumber: nat)
    returns (validAfter: bool, count: int, name: Option<string>)
    ensures !validAfter
    ensures count == |ports|
    ensures name == None
  {
    var probe := new MidiProbe(false, true);
    probe.PublishIteration(ports);
    probe.Dispose();
    assert probe.frees == 1;
    probe.Dispose();
    assert probe.frees == 1;
    validAfter := probe.HandleValid();
    count := probe.PortCount(true);
    name := probe.GetPortName(portNumber);
  }
}
