/**
 * WebMIDIPlayer (WebMIDIPlayer.js): the page-side end of the player channel.
 * It holds the MIDI access (None until access is granted; the outputs are
 * their ids in enumeration order) and the id of the selected output, and
 * turns channel messages into calls on that output, recorded in `device`.
 * A call on a missing access or a missing output throws in the source; here
 * it returns false and records nothing.
 */
module MidiPlayer {
  import opened Wrappers
  import opened Messages

  const DefaultOutputId: string := "output-0"
  const NotInitialized: string := "midi not initialized"

  /** The id the access callback selects: the last enumerated output's, or the default when there is none. */
  method LastOutputId(outputs: seq<string>) returns (name: string)
    ensures outputs == [] ==> name == DefaultOutputId
    ensures outputs != [] ==> name == outputs[|outputs| - 1]
    ensures name == DefaultOutputId || name in outputs
  {
    name := DefaultOutputId;
    var k := 0;
    while k < |outputs|
      invariant 0 <= k <= |outputs|
      invariant k == 0 ==> name == DefaultOutputId
      invariant k > 0 ==> name == outputs[k - 1]
    {
      name := outputs[k];
      k := k + 1;
    }
  }

  class WebMIDIPlayer {
    /** The granted access, as the ids of its outputs; None stands for null. */
    var midi: Option<seq<string>>
    var outputId: string
    /** Calls made on MIDI outputs, oldest first. */
    var device: seq<DeviceCall>

    /** `_currentOutput()` exists: access was granted and it has an output with the selected id. */
    predicate HasCurrentOutput()
      reads this
    {
      midi.Some? && outputId in midi.value
    }

    constructor ()
      ensures midi == None && outputId == DefaultOutputId && device == []
    {
      midi := None;
      outputId := DefaultOutputId;
      device := [];
    }

    /** The success callback of requestMIDIAccess: stores the access and selects its last output. */
    method AccessGranted(outputs: seq<string>)
      modifies this`midi, this`outputId
      ensures midi == Some(outputs)
      ensures outputs == [] ==> outputId == DefaultOutputId
      ensures outputs != [] ==> outputId == outputs[|outputs| - 1] && HasCurrentOutput()
    {
      midi := Some(outputs);
      var name := LastOutputId(outputs);
      outputId := name;
    }

    /** listOutputPorts: the outputs, or the "midi not initialized" error before access is granted. */
    method ListOutputPorts() returns (r: Result<seq<string>, string>)
      ensures midi.None? ==> r == Failure(NotInitialized)
      ensures midi.Some? ==> r == Success(midi.value)
    {
      if midi.None? {
        return Failure(NotInitialized);
      }
      return Success(midi.value);
    }

    method SetOutputPort(id: string)
      modifies this`outputId
      ensures outputId == id
    {
      outputId := id;
    }

    /** forceClearOutputQueue: clears the selected output's queue. */
    method ForceClearOutputQueue() returns (ok: bool)
      modifies this`device
      ensures ok == old(HasCurrentOutput())
      ensures device == if ok then old(device) + [ClearQueue(outputId)] else old(device)
    {
      ok := HasCurrentOutput();
      if ok {
        device := device + [ClearQueue(outputId)];
      }
    }

    /** outputImmediately: sends the data on the selected output now. */
    method OutputImmediately(data: seq<int>) returns (ok: bool)
      modifies this`device
      ensures ok == old(HasCurrentOutput())
      ensures device == if ok then old(device) + [Send(outputId, data)] else old(device)
    {
      ok := HasCurrentOutput();
      if ok {
        device := device + [Send(outputId, data)];
      }
    }

    /** outputWithTimestamp: sends the data on the selected output at the timestamp. */
    method OutputWithTimestamp(data: seq<int>, timestamp: real) returns (ok: bool)
      modifies this`device
      ensures ok == old(HasCurrentOutput())
      ensures device == if ok then old(device) + [SendAt(outputId, data, timestamp)] else old(device)
    {
      ok := HasCurrentOutput();
      if ok {
        device := device + [SendAt(outputId, data, timestamp)];
      }
    }

    /**
     * The channel's onmessage: output-immediately becomes a send now,
     * output-with-timestamp a send at the timestamp, anything else is ignored.
     */
    method OnChannelMessage(msg: PlayerMessage) returns (ok: bool)
      modifies this`device
      ensures msg.OutputImmediately? ==>
        ok == old(HasCurrentOutput()) &&
        device == if ok then old(device) + [Send(outputId, msg.data)] else old(device)
      ensures msg.OutputWithTimestamp? ==>
        ok == old(HasCurrentOutput()) &&
        device == if ok then old(device) + [SendAt(outputId, msg.data, msg.timestamp)] else old(device)
      ensures msg.OtherOutput? ==> ok && device == old(device)
    {
      match msg {
        case OutputImmediately(data) =>
          ok := OutputImmediately(data);
        case OutputWithTimestamp(data, timestamp) =>
          ok := OutputWithTimestamp(data, timestamp);
        case OtherOutput =>
          ok := true;
      }
    }
  }
}
