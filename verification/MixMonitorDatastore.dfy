// The datastore that MixMonitor hangs on the recorded channel (apps/app_mixmonitor.c).
//
// `Fields` is the data its lock protects and the functions below say what each lock-delimited
// section does to it; the class updates the same fields in place and is proved against them.
module MixMonitorDatastore {
  import opened Prelude

  datatype Fields = Fields(
    chan: Option<nat>,    // the channel being recorded
    destructionOk: bool,  // the channel side will not touch the datastore again
    fsQuit: bool,         // the recording stream has been closed for good
    fsOpen: bool,         // the recording stream is open
    audiohook: bool)      // the audiohook may be poked through the datastore

  function Closed(f: Fields): Fields {
    if f.fsOpen then f.(fsOpen := false, fsQuit := true) else f
  }

  function Destroyed(f: Fields): Fields {
    f.(chan := None, audiohook := false, destructionOk := true)
  }

  function FixedUp(f: Fields, newChan: nat): Fields {
    f.(chan := Some(newChan))
  }

  function HookForgotten(f: Fields): Fields {
    f.(audiohook := false)
  }

  class Filestream {
    var open: bool
    constructor ()
      ensures open
    {
      open := true;
    }
  }

  class MixmonitorDs {
    var chan: Option<nat>
    var destructionOk: bool
    var destructionSignals: nat
    var fsQuit: bool
    var fs: Filestream?
    var audiohook: bool

    function View(): (f: Fields)
      reads this
    {
      Fields(chan, destructionOk, fsQuit, fs != null, audiohook)
    }

    constructor (c: nat)
      ensures View() == Fields(Some(c), false, false, false, true)
      ensures destructionSignals == 0
    {
      chan, destructionOk, destructionSignals := Some(c), false, 0;
      fsQuit, fs, audiohook := false, null, true;
    }

    // Closes the stream that was open, and only then raises fs_quit.
    method CloseFs()
      modifies this, fs
      ensures View() == Closed(old(View()))
      ensures old(fs) != null ==> !old(fs).open
      ensures destructionSignals == old(destructionSignals)
    {
      if fs != null {
        fs.open := false;
        fs := null;
        fsQuit := true;
      }
    }

    method Destroy()
      modifies this
      ensures View() == Destroyed(old(View()))
      ensures fs == old(fs) && destructionSignals == old(destructionSignals) + 1
    {
      chan := None;
      audiohook := false;
      destructionOk := true;
      destructionSignals := destructionSignals + 1;
    }

    method ChanFixup(newChan: nat)
      modifies this
      ensures View() == FixedUp(old(View()), newChan)
      ensures fs == old(fs) && destructionSignals == old(destructionSignals)
    {
      chan := Some(newChan);
    }

    method ForgetHook()
      modifies this
      ensures View() == HookForgotten(old(View()))
      ensures fs == old(fs) && destructionSignals == old(destructionSignals)
    {
      audiohook := false;
    }
  }
}
