// An open file of the user-space driver (driver/snx_ppdev.c): its claim flag, the
// device it registers on its first claim, and the mode it swaps with the port's.
// Every operation is a step of module PortSharing on this file and of module
// Arbiter on the port.

module PpFiles {
  import opened Errno
  import opened Options
  import opened Arbiter
  import opened Parports
  import opened PortSharing

  // struct ieee1284_info of a port
  class PortInfo {
    var mode: bv32
    var phase: Phase

    constructor ()
      ensures mode == COMPAT && phase == FwdIdle
    {
      mode, phase := COMPAT, FwdIdle;
    }
  }

  class PpFile {
    const port: Parport
    const info: PortInfo
    var pdev: Pardevice?
    var claimed: bool
    var mode: bv32
    var phase: Phase
    var savedMode: bv32
    var savedPhase: Phase
    ghost var call: Call    // the call this file's thread is in

    ghost function Portable(): View
      reads this, info
    {
      View(Client(false, claimed, call, Info(mode, phase), Info(savedMode, savedPhase)), Info(info.mode, info.phase))
    }

    ghost predicate Valid()
      reads this, port, port.Devs, port.Queue
    {
      && port.Valid() && port.Settled() && port.holds > 0
      && (pdev != null ==> pdev in port.Devs)
      && (call == Idle ==> (claimed ==> pdev != null && port.cad == pdev) && (pdev != null ==> pdev !in port.Queue))
      && (call != Idle ==> pdev != null)
    }

    constructor (port: Parport, info: PortInfo)
      requires port.Valid() && port.Settled() && port.holds > 0
      ensures Valid() && this.port == port && this.info == info && pdev == null
      ensures Portable() == View(Client(false, false, Idle, DEFAULT, Portable().c.saved), Info(info.mode, info.phase))
    {
      this.port, this.info := port, info;
      pdev, claimed, call := null, false, Idle;
      mode, phase := COMPAT, InitPhase(COMPAT);
      savedMode, savedPhase := *, *;
    }

    // snx_register_device: the reference of the look-up is put back either way.
    method RegisterDevice(exclusive: bool, irq: bool, timeslice: Jiffies, outOfMemory: bool) returns (err: int)
      requires Valid() && call == Idle && pdev == null
      modifies this`pdev, port, port.Devs
      ensures Valid() && port.holds == old(port.holds)
      ensures err != 0 ==> err == -6 && pdev == null && port.Abs() == old(port.Abs())
      ensures err == 0 ==> pdev != null && fresh(pdev) && port.Devs == [pdev] + old(port.Devs)
      ensures err == 0 ==> port.Abs() == Registered(old(port.Abs()), pdev, irq)
    {
      var dev := MakeDevice(port, exclusive, irq, timeslice, outOfMemory);
      if dev == null {
        return -ENXIO;
      }
      pdev := dev;
      err := 0;
    }

    static method MakeDevice(port: Parport, exclusive: bool, irq: bool, timeslice: Jiffies, outOfMemory: bool)
        returns (dev: Pardevice?)
      requires port.Valid() && port.Settled() && port.holds > 0
      modifies port, port.Devs
      ensures port.Valid() && port.Settled() && port.holds == old(port.holds)
      ensures dev == null ==> port.Abs() == old(port.Abs()) && port.Devs == old(port.Devs)
      ensures dev != null ==> fresh(dev) && port.Devs == [dev] + old(port.Devs) && dev !in port.Queue
      ensures dev != null ==> port.Abs() == Registered(old(port.Abs()), dev, irq)
    {
      port.GetPort();
      dev := port.RegisterDevice(false, exclusive, irq, timeslice, outOfMemory);
      port.PutPort();
    }

    // PPCLAIM up to the sleep
    method Claim(exclusive: bool, irq: bool, now: Jiffies, timeslice: Jiffies, outOfMemory: bool) returns (err: int)
      requires Valid() && call == Idle
      modifies this`pdev, this`call, port, port.Devs
      ensures Valid()
      ensures old(claimed) ==> err == -22
      ensures err != 0 ==> port.Abs() == old(port.Abs()) && Portable() == old(Portable()) && pdev == old(pdev)
      ensures err == 0 ==> pdev != null && Portable() == View(old(Portable()).c.(call := Claiming), old(Portable()).info)
      ensures err == 0 ==> pdev in (if old(pdev) == null then Registered(old(port.Abs()), pdev, irq) else old(port.Abs())).saved
      ensures err == 0 ==> port.Abs() == Claimed(
                if old(pdev) == null then Registered(old(port.Abs()), pdev, irq) else old(port.Abs()), pdev, true)
    {
      if claimed {
        return -EINVAL;
      }
      if pdev == null {
        err := RegisterDevice(exclusive, irq, timeslice, outOfMemory);
        if err != 0 {
          return err;
        }
      }
      Block(now);
      err := 0;
    }

    method Block(now: Jiffies)
      requires Valid() && call == Idle && pdev != null
      modifies this`call, port, port.Devs
      ensures Valid() && Portable() == View(old(Portable()).c.(call := Claiming), old(Portable()).info)
      ensures port.Abs() == Claimed(old(port.Abs()), pdev, true)
    {
      var r := port.ClaimOrBlock(pdev, now);
      call := Claiming;
    }

    // The rest of PPCLAIM, once the device owns the port
    method Granted()
      requires Valid() && call == Claiming && port.cad == pdev
      modifies this`claimed, this`savedMode, this`savedPhase, this`call, info
      ensures Valid() && call == Idle && Portable() == Entered(old(Portable()))
    {
      claimed := true;
      savedMode := info.mode;
      savedPhase := info.phase;
      info.mode := mode;
      info.phase := phase;
      call := Idle;
    }

    // PPRELEASE
    method Release(now: Jiffies) returns (err: int)
      requires Valid() && call == Idle
      modifies this`claimed, this`mode, this`phase, info, port, port.Devs
      ensures Valid() && (err == 0 <==> old(claimed))
      ensures err != 0 ==> err == -22 && Portable() == old(Portable()) && port.Abs() == old(port.Abs())
      ensures err == 0 ==> Portable() == Left(old(Portable())) && port.Abs() == Released(old(port.Abs()), pdev)
    {
      if !claimed {
        return -EINVAL;
      }
      LetGo(now);
      err := 0;
    }

    method LetGo(now: Jiffies)
      requires Valid() && call == Idle && claimed
      modifies this`claimed, this`mode, this`phase, info, port, port.Devs
      ensures Valid() && port.Devs == old(port.Devs)
      ensures Portable() == Left(old(Portable())) && port.Abs() == Released(old(port.Abs()), pdev)
    {
      TakeModeOut();
      GiveUp(now);
    }

    method GiveUp(now: Jiffies)
      requires Valid() && call == Idle && claimed
      modifies this`claimed, port, port.Devs
      ensures Valid() && port.Devs == old(port.Devs)
      ensures Portable() == View(old(Portable()).c.(claimed := false), old(Portable()).info)
      ensures port.Abs() == Released(old(port.Abs()), pdev)
    {
      ReleasePort(port, pdev, now);
      claimed := false;
    }

    method TakeModeOut()
      requires Valid()
      modifies this`mode, this`phase, info
      ensures Valid() && Portable().c == old(Portable()).c.(state := old(Portable()).info)
      ensures Portable().info == old(Portable()).c.saved && port.Abs() == old(port.Abs())
    {
      mode := info.mode;
      phase := info.phase;
      info.mode := savedMode;
      info.phase := savedPhase;
    }

    static method ReleasePort(port: Parport, pdev: Pardevice, now: Jiffies)
      requires port.Valid() && port.Settled() && pdev in port.Devs && pdev !in port.Queue
      modifies port, port.Devs
      ensures port.Valid() && port.Settled() && port.Devs == old(port.Devs) && port.holds == old(port.holds)
      ensures pdev !in port.Queue && port.cad != pdev && port.Abs() == Released(old(port.Abs()), pdev)
    {
      port.AbsInv();
      ReleasedInv(port.Abs(), pdev);
      port.Release(pdev, now);
      assert port.Abs().queue == port.Queue;
    }

    // PPYIELD up to the sleep; the mode stays in the port.
    method Yield(now: Jiffies) returns (err: int)
      requires Valid() && call == Idle
      modifies this`call, port, port.Devs
      ensures Valid() && (err == 0 <==> claimed)
      ensures err != 0 ==> err == -22 && Portable() == old(Portable()) && port.Abs() == old(port.Abs())
      ensures err == 0 ==> Portable() == View(old(Portable()).c.(call := Yielding), old(Portable()).info)
      ensures err == 0 ==> port.Abs() == Yielded(old(port.Abs()), pdev, old(Elapsed(now, pdev.time) >= pdev.timeslice))
    {
      if !claimed {
        return -EINVAL;
      }
      YieldPort(port, pdev, now);
      call := Yielding;
      err := 0;
    }

    static method YieldPort(port: Parport, pdev: Pardevice, now: Jiffies)
      requires port.Valid() && port.Settled() && pdev in port.Devs && pdev !in port.Queue
      modifies port, port.Devs
      ensures port.Valid() && port.Settled() && port.Devs == old(port.Devs) && port.holds == old(port.holds)
      ensures port.Abs() == Yielded(old(port.Abs()), pdev, old(Elapsed(now, pdev.time) >= pdev.timeslice))
    {
      TicksElapsed(now, pdev.time);
      var r := port.YieldBlocking(pdev, now, Elapsed(now, pdev.time));
    }

    // The rest of PPYIELD, once the device owns the port again
    ghost method Resumed()
      requires Valid() && call == Yielding && port.cad == pdev
      modifies this`call
      ensures Valid() && Portable() == View(old(Portable()).c.(call := Idle), old(Portable()).info)
    {
      call := Idle;
    }

    // PPSETMODE
    method SetMode(mode: bv32)
      requires Valid() && call == Idle
      modifies this`mode, this`phase, info
      ensures Valid() && Portable() == ModeSet(old(Portable()), mode)
    {
      this.mode := mode;
      phase := InitPhase(mode);
      if claimed {
        info.mode := mode;
        info.phase := phase;
      }
    }

    // PPGETMODE
    method GetMode() returns (mode: bv32)
      requires Valid() && call == Idle
      ensures mode == ModeOf(Portable())
    {
      if claimed {
        mode := info.mode;
      } else {
        mode := this.mode;
      }
    }

    // PPSETPHASE
    method SetPhase(phase: Phase)
      requires Valid() && call == Idle
      modifies this`phase, info
      ensures Valid() && Portable() == PhaseSet(old(Portable()), phase)
    {
      this.phase := phase;
      if claimed {
        info.phase := phase;
      }
    }

    // Closing a file that is in another mode but holds no claim starts with a claim.
    method CloseClaims(now: Jiffies) returns (claims: bool)
      requires Valid() && call == Idle
      modifies this`call, port, port.Devs
      ensures Valid() && (claims <==> !claimed && pdev != null && mode != COMPAT)
      ensures !claims ==> Portable() == old(Portable()) && port.Abs() == old(port.Abs())
      ensures claims ==> Portable() == View(old(Portable()).c.(call := Claiming), old(Portable()).info)
      ensures claims ==> port.Abs() == Claimed(old(port.Abs()), pdev, true)
    {
      claims := !claimed && pdev != null && mode != COMPAT;
      if claims {
        Block(now);
      }
    }

    // The rest of closing: a claim is given up as PPRELEASE does, and the device
    // goes; negotiating back to compatibility mode changes nothing.
    method Close(now: Jiffies)
      requires Valid() && call == Idle && (claimed || pdev == null || mode == COMPAT)
      modifies this, info, port, port.Devs
      ensures Valid() && pdev == null && !claimed
      ensures Portable().info == if old(claimed) then Left(old(Portable())).info else old(Portable()).info
      ensures port.Abs() == if old(pdev) == null then old(port.Abs()) else Unregistered(old(port.Abs()), old(pdev))
    {
      if claimed {
        port.AbsInv();
        ReleasedInv(port.Abs(), pdev);
        LetGo(now);
      }
      if pdev != null {
        Unregister(now);
      }
    }

    method Unregister(now: Jiffies)
      requires Valid() && call == Idle && pdev != null && !claimed
      modifies this`pdev, port, port.Devs
      ensures Valid() && pdev == null
      ensures port.Abs() == Unregistered(old(port.Abs()), old(pdev))
    {
      port.UnregisterDevice(pdev, now);
      pdev := null;
    }
  }
}
