/**
 The object MyChatObjects as the server holds it: two string variables that
 change in place, their client-writable flags, the client write the server
 runtime performs on a client's behalf, the relay step of the serving loop
 and a bounded run of that loop.
 */
module ChatObjects {
  import opened RelaySpec

  class ChatObjects {
    var input: Value
    var display: Value
    var inputWritable: bool
    var displayWritable: bool

    /** The abstract value of the object. */
    function State(): RelayState
      reads this
    {
      RelayState(input, display, inputWritable, displayWritable)
    }

    /**
     Builds the variables as the server does at startup: Input holding "",
     Display holding "Starting Chat", both created read-only, then Input made
     client-writable.
     */
    constructor ()
      ensures input == Str("") && display == Str("Starting Chat")
      ensures inputWritable && !displayWritable
      ensures State() == Initial() && ClientView(State())
    {
      input := Str("");
      display := Str("Starting Chat");
      inputWritable := false;
      displayWritable := false;
      new;
      inputWritable := true;
    }

    /**
     A client writes `value` into `target`. A variable that is not writable
     refuses the write and keeps its value; nothing else ever changes, so
     under the server's access levels a client write changes Input only.
     */
    method ClientWrite(target: Variable, value: Value) returns (status: WriteStatus)
      modifies this
      ensures State() == ApplyWrite(old(State()), Write(target, value))
      ensures status == StatusOf(old(State()), target)
      ensures status == Good <==> (target == Input && old(inputWritable)) || (target == Display && old(displayWritable))
      ensures !old(displayWritable) ==> display == old(display)
      ensures inputWritable == old(inputWritable) && displayWritable == old(displayWritable)
    {
      if target == Input && inputWritable {
        input := value;
        status := Good;
      } else if target == Display && displayWritable {
        display := value;
        status := Good;
      } else {
        status := BadNotWritable;
      }
    }

    /**
     One relay step: when Input holds anything but "" (a null included), its
     value goes into Display, Input is reset to "" and the moved value is
     returned for the log line; when Input is "" nothing changes.
     */
    method Poll() returns (moved: Option<Value>)
      modifies this
      ensures State() == PollStep(old(State()))
      ensures moved == Moved(old(State()))
      ensures input == Str("")
      ensures old(input) != Str("") ==> display == old(input) && moved == Some(old(input))
      ensures old(input) == Str("") ==> display == old(display) && moved == None
    {
      moved := None;
      if input != Str("") {
        var newInput := input;
        display := newInput;
        input := Str("");
        moved := Some(newInput);
      }
    }

    /**
     The serving loop, bounded: one iteration per element of `rounds`, each
     being the writes clients make during the pause followed by one relay step.
     Returns the logged values in order.
     */
    method Serve(rounds: seq<seq<Write>>) returns (transcript: seq<Value>)
      modifies this
      ensures State() == Served(old(State()), rounds)
      ensures transcript == ServeLog(old(State()), rounds)
    {
      ghost var start := State();
      transcript := [];
      var i := 0;
      while i < |rounds|
        invariant 0 <= i <= |rounds|
        invariant State() == Served(start, rounds[..i])
        invariant transcript == ServeLog(start, rounds[..i])
      {
        var ws := rounds[i];
        ghost var before := State();
        var j := 0;
        while j < |ws|
          invariant 0 <= j <= |ws|
          invariant State() == AfterWrites(before, ws[..j])
        {
          var status := ClientWrite(ws[j].target, ws[j].value);
          assert ws[..j + 1][..j] == ws[..j];
          j := j + 1;
        }
        assert ws[..j] == ws;
        var moved := Poll();
        if moved.Some? {
          transcript := transcript + [moved.value];
        }
        assert rounds[..i + 1][..i] == rounds[..i];
        i := i + 1;
      }
      assert rounds[..i] == rounds;
    }
  }
}
