# MidiProbe — a verified model of the Minis MIDI port probe

Minis enumerates MIDI input ports through `MidiProbe`. The probe holds an RtMidi input handle. A background
thread polls the subsystem about 30 times a second. Each pass builds a fresh list of port names and publishes
the count and the list together under a lock. Readers call the `PortCount` getter. It try-locks the shared
pair, copies it into a per-instance cache when the lock is free, and otherwise keeps the stale cache.
`GetPortName` looks a name up in that cache. `Dispose` releases the handle once.

`MidiProbe.dfy` (module `Minis`) models this as one class, `MidiProbe`, with these parts:

- `handleNull` and `handleOk` stand for the native handle.
- `runThread` is the polling loop's flag.
- `portCount` and `portNames` are the shared slot.
- `localPortCount` and `localPortNames` are the reader cache.
- The ghost counter `frees` counts how often the handle was released.

Concurrency is made explicit:

- One pass of the polling loop is a call to `PublishIteration`.
- The outcome of `Monitor.TryEnter` is the `lockAcquired` argument of `PortCount`.
- The subsystem's ports are a `seq<string>`; entry `i` is the name it reports for port `i`.

The invariant `Valid()` says four things:

- Each count equals the length of its list.
- A probe whose handle could not be acquired has no polling loop, so its shared and cached lists stay empty.
- A running probe's handle is valid until it is freed.
- For a running probe, the handle has been freed exactly once when it is null, and never before. A probe whose acquisition returned null has a null handle that was never freed.

Every method preserves `Valid()`. Four client methods replay scenarios against the class's contracts alone:
two ports, a device unplugged, failed acquisition, and a double `Dispose`.

## Model

| member | source | states |
|---|---|---|
| `Minis.CollectPortNames` | Packages/jp.keijiro.minis/Runtime/Internal/MidiProbe.cs:39-43 | the list built by the polling loop has exactly as many entries as the subsystem reports ports, and entry i is the name of port i (index order 0..count-1) |
| `Minis.MidiProbe.constructor` | Packages/jp.keijiro.minis/Runtime/Internal/MidiProbe.cs:18-33 | a null or not-ok handle leaves the run flag false (no polling loop); a valid one raises it; shared and local counts start at 0 with empty lists; nothing freed yet; `Valid()` holds |
| `Minis.MidiProbe.PublishIteration` | Packages/jp.keijiro.minis/Runtime/Internal/MidiProbe.cs:36-54 | while the run flag is raised, one pass replaces the shared count and list together with the subsystem's current ports, so the shared count equals the shared list's length; with the flag down nothing changes |
| `Minis.MidiProbe.PortCount` | Packages/jp.keijiro.minis/Runtime/Internal/MidiProbe.cs:85-101 | lock acquired: the local cache becomes the shared count and list; lock missed: the cache is unchanged (stale read); either way the local count is returned, equals the cached list's length, is 0 for a probe that never started polling, and with a valid handle every index below it has a name and the count itself has none |
| `Minis.MidiProbe.GetPortName` | Packages/jp.keijiro.minis/Runtime/Internal/MidiProbe.cs:104-109 | a name is returned exactly when the handle is non-null and ok and the index is below the cached list's length, and it is the cached name at that index; with an invalid handle any index, negative too, gives no name; the frame reads only the handle and the local list |
| `Minis.MidiProbe.Dispose` | Packages/jp.keijiro.minis/Runtime/Internal/MidiProbe.cs:75-83 | a valid handle is freed once and nulled; a null or not-ok handle (second call, failed acquisition) is left alone and nothing is freed; afterwards the handle is never valid |
| `Minis.TwoPortScenario` | Packages/jp.keijiro.minis/Runtime/Internal/MidiProbe.cs:36-109 | subsystem ports ["SynthA", "ControllerB"]: after one pass and a locked read the count is 2, names 0 and 1 are "SynthA" and "ControllerB", index 2 has no name |
| `Minis.UnplugScenario` | Packages/jp.keijiro.minis/Runtime/Internal/MidiProbe.cs:36-109 | ports go from ["X"] to []: a reader that misses the lock keeps its previous count and name, and the next locked read gives count 0 and no name at index 0 |
| `Minis.FailedAcquisitionScenario` | Packages/jp.keijiro.minis/Runtime/Internal/MidiProbe.cs:25-31 | with a null or not-ok handle, whatever the subsystem reports and whatever the lock outcome, the count and the name at any index (negative too) are 0 and none both before `Dispose` and after it, with a further polling pass in between |
| `Minis.DisposeTwiceScenario` | Packages/jp.keijiro.minis/Runtime/Internal/MidiProbe.cs:75-109 | two `Dispose` calls on a working probe free the handle once; afterwards `PortCount` still reports the cached count (it never checks the handle) while every name lookup yields nothing |

## Left out

- The polling thread, its `Thread.Sleep(1000 / 30)` cadence and the `Join` in the finalizer are concurrency and timing. A pass is an explicit `PublishIteration` call, so liveness and teardown latency are not modelled.
- `Monitor.Enter`, `TryEnter` and `Exit` are not modelled as a lock. The try-lock outcome is a boolean argument. The lock object itself is not modelled either. The polling loop enters the monitor of the old `_portNames` list (line 45). It then exits on the newly assigned one (line 53), whose monitor it never entered. The reader locks whichever list is current.
- The native RtMidi calls (`InCreateDefault`, `GetPortCount`, `GetPortName`, `InFree`) and `Marshal.PtrToStringAnsi` are foreign calls. The handle's acquisition outcome is a constructor argument. The subsystem's ports are an input sequence. `InFree` is the ghost counter `frees`.
- The `(int)` cast of the subsystem's unsigned port count is not modelled; the count is the length of the input sequence.
- The finalizer `~MidiProbe` and `GC.SuppressFinalize` belong to the garbage collector's lifecycle. `SuppressFinalize` runs only when a `Dispose` call frees the handle, so the finalizer stays armed unless that happened. It lowers the run flag, joins the thread and frees a valid handle.
- The shared pair is `static` in the source and shared by every probe. The model gives the single probe its own slot. Publishes from one probe reaching another probe's readers are not modelled.
- The `UnityEngine.Debug.LogWarning` call on failed acquisition is logging only.
- `PublishIteration` models the polling loop as designed, one pass after another. As written, every pass throws `SynchronizationLockException` at line 53, because `Monitor.Exit` runs on the list just assigned at line 49. The count and list are already published by then, so the first pass publishes once. The exception leaves the `finally`, the polling thread ends, and it keeps holding the old list's monitor. A second publish never happens in the source. The model allows repeated calls, and `UnplugScenario` publishes twice.
- `Dispose` nulls the handle but does not lower the run flag. If the polling loop were still running (the intended loop, not the one as written), it would query the subsystem with a null handle. `PublishIteration` requires a non-null handle while the run flag is up, so this path is excluded.
- Negative indices with a valid handle: the source does not guard them, and `List<string>` throws. `GetPortName` requires `0 <= portNumber` only when the handle is valid. With a null or not-ok handle any index, negative too, yields no name, as at line 106.
