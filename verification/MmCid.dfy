/** Sizing of the concurrency-ID space of one process and the switch between IDs owned by tasks and
    IDs owned by CPUs, which has hysteresis. */
module MmCid {
  import opened Common

  function OptCids(allowed: nat, users: nat): nat {
    Min(allowed, users)
  }

  /** The most IDs that are no more than a quarter above the need, but never more than there are CPUs. */
  function MaxCids(allowed: nat, users: nat, possible: nat): (size: nat)
    ensures size <= possible && 4 * size <= 5 * Min(allowed, users)
    ensures size == possible || 4 * (size + 1) > 5 * Min(allowed, users)
  {
    var opt := OptCids(allowed, users);
    Min(opt + opt / 4, possible)
  }

  /** User count below which a process goes back to task-owned IDs: the least that is no less than three
      quarters of the need, or half the CPUs if that is less, and never zero. */
  function PcpuThreshold(allowed: nat, users: nat, possible: nat): (limit: nat)
    ensures limit == 1 || (1 < limit <= possible / 2 && 4 * (limit - 1) < 3 * Min(allowed, users))
    ensures 4 * limit >= 3 * Min(allowed, users) || limit >= possible / 2
  {
    var opt := OptCids(allowed, users);
    Max(Min(opt - opt / 4, possible / 2), 1)
  }

  /** Leaving task mode and coming back at the same affinity are at least this far apart: at least
      a quarter of the allowed CPUs must come and go, twice that where the CPU count is no cap. */
  lemma HysteresisGap(allowed: nat, up: nat, down: nat, possible: nat)
    requires 1 <= allowed <= possible
    requires up > MaxCids(allowed, up, possible)
    requires down < PcpuThreshold(allowed, up, possible)
    ensures allowed < up && up - down >= allowed / 4 + 2
    ensures allowed + allowed / 4 <= possible ==> up - down >= 2 * (allowed / 4) + 2
  {
  }

  class Mm {
    const possible: nat  // CPUs of the system
    var users: nat
    var nrCpusAllowed: nat
    var maxCids: nat
    var pcpuThrs: nat
    var onCpu: bool    // mode bit: IDs are owned by CPUs
    var transit: bool  // mode bit: ownership is being handed over
    var updateDeferred: bool

    constructor (possible: nat, allowed: nat)
      requires 1 <= allowed <= possible
      ensures Valid() && users == 0 && !onCpu && !transit && nrCpusAllowed == allowed && this.possible == possible
    {
      this.possible, users, nrCpusAllowed := possible, 0, allowed;
      maxCids, pcpuThrs, onCpu, transit, updateDeferred := 0, 0, false, false, false;
    }

    /** Between events: with task-owned IDs there is one for every user; with CPU-owned ones there
        is one for every CPU or user, and the threshold to go back has not been crossed. */
    ghost predicate AtRest()
      reads this
    {
      && 1 <= nrCpusAllowed <= possible
      && maxCids == MaxCids(nrCpusAllowed, users, possible)
      && (!onCpu ==> users <= maxCids && pcpuThrs == 0)
      && (onCpu ==> 1 <= pcpuThrs <= users && pcpuThrs <= nrCpusAllowed && (pcpuThrs == 1 || pcpuThrs <= possible / 2))
    }

    /** At rest, with no switch back waiting to be carried out. */
    ghost predicate Valid()
      reads this
    {
      AtRest() && !updateDeferred
    }

    /** No mode change is due. */
    predicate Settled()
      reads this
    {
      if onCpu then pcpuThrs != 0 && users >= pcpuThrs
      else pcpuThrs == 0 && users <= MaxCids(nrCpusAllowed, users, possible)
    }

    /** The number of users changed: resize and decide the mode. There are then enough IDs: one for
        every user, or with CPU-owned IDs one for every user or allowed CPU. A settled process stays as it is,
        and afterwards the process is settled, so no second change can follow without an event. */
    method UpdateMaxCids() returns (flipped: bool)
      requires 1 <= nrCpusAllowed <= possible
      requires onCpu ==> 1 <= pcpuThrs <= nrCpusAllowed && (pcpuThrs == 1 || pcpuThrs <= possible / 2)
      requires !onCpu ==> pcpuThrs == 0
      modifies this`maxCids, this`pcpuThrs, this`onCpu, this`transit, this`updateDeferred
      ensures Valid() && Settled()
      ensures (if onCpu then Min(nrCpusAllowed, users) else users) <= maxCids <= possible
      ensures onCpu ==> 1 <= pcpuThrs <= users
      ensures old(Settled()) <==> !flipped
      ensures flipped ==> onCpu == !old(onCpu) && transit == !old(transit)
      ensures flipped && onCpu ==> pcpuThrs == PcpuThreshold(nrCpusAllowed, users, possible)
      ensures !flipped ==> onCpu == old(onCpu) && transit == old(transit) && pcpuThrs == old(pcpuThrs)
    {
      updateDeferred := false;
      maxCids := MaxCids(nrCpusAllowed, users, possible);
      if !onCpu {
        if users > maxCids {
          pcpuThrs := PcpuThreshold(nrCpusAllowed, users, possible);
        }
      } else if users < pcpuThrs {
        pcpuThrs := 0;
      }
      flipped := onCpu != (pcpuThrs != 0);
      if flipped {
        onCpu, transit := !onCpu, !transit;
      }
    }

    method CompleteTransit(cpuMode: bool)
      modifies this`onCpu, this`transit
      ensures onCpu == cpuMode && !transit
    {
      onCpu, transit := cpuMode, false;
    }

    /** A new thread. Only the switch to CPU-owned IDs can result, never the switch back. */
    method Fork() returns (flipped: bool)
      requires Valid()
      modifies this
      ensures Valid() && users == old(users) + 1 && nrCpusAllowed == old(nrCpusAllowed)
      ensures flipped <==> !old(onCpu) && users > maxCids
      ensures onCpu == (old(onCpu) || flipped)
      ensures transit == (old(transit) && !flipped)
      ensures old(users) == 0 ==> !flipped
    {
      users := users + 1;
      flipped := UpdateMaxCids();
      if flipped {
        CompleteTransit(onCpu);
      }
    }

    /** A thread leaves. It never moves the process into CPU-owned IDs; the last one leaves any
        pending mode change to whoever comes next, so it alone can leave the transit bit set. */
    method Exit() returns (flipped: bool)
      requires Valid() && 1 <= users
      modifies this
      ensures Valid() && users == old(users) - 1 && nrCpusAllowed == old(nrCpusAllowed)
      ensures flipped <==> old(onCpu) && users < old(pcpuThrs)
      ensures flipped ==> !onCpu
      ensures !flipped ==> onCpu == old(onCpu) && transit == old(transit)
      ensures flipped ==> transit == (old(users) == 1 && !old(transit))
    {
      var last := users == 1;
      users := users - 1;
      flipped := UpdateMaxCids();
      if flipped && !last {
        CompleteTransit(false);
      }
    }

    /** The process may use more CPUs. The threshold follows, but it can never pass the number of
        users, so a deferred switch back is never queued. */
    method WidenAffinity(allowed: nat)
      requires Valid() && nrCpusAllowed <= allowed <= possible
      modifies this`nrCpusAllowed, this`maxCids, this`pcpuThrs, this`updateDeferred
      ensures Valid() && !updateDeferred
      ensures users != 0 ==> nrCpusAllowed == allowed
      ensures users == 0 ==> nrCpusAllowed == old(nrCpusAllowed)
      ensures onCpu && allowed != old(nrCpusAllowed) ==> pcpuThrs == PcpuThreshold(allowed, users, possible)
      ensures old(maxCids) <= maxCids
    {
      if users == 0 || allowed == nrCpusAllowed {
        return;
      }
      nrCpusAllowed := allowed;
      maxCids := MaxCids(nrCpusAllowed, users, possible);
      if !onCpu {
        return;
      }
      pcpuThrs := PcpuThreshold(nrCpusAllowed, users, possible);
      updateDeferred := updateDeferred || users < pcpuThrs;
    }

    /** The deferred update never finds a mode change to make, queued or not. */
    method DeferredWork() returns (flipped: bool)
      requires AtRest() && (users == 0 ==> !updateDeferred)
      modifies this
      ensures !flipped && Valid() && onCpu == old(onCpu) && users == old(users) && transit == old(transit)
    {
      flipped := false;
      if users == 0 || !updateDeferred {
        return;
      }
      flipped := UpdateMaxCids();
    }
  }

  /** A process pinned to one CPU that starts a second thread, loses it and then fails an execve
      ends up with task-owned IDs and the transit bit set although nothing is being handed over;
      the next mode change then runs with the bit clear. */
  method StuckTransit(possible: nat) returns (mm: Mm)
    requires 2 <= possible
    ensures mm.Valid() && mm.users == 1 && !mm.onCpu && mm.transit
  {
    mm := new Mm(possible, 1);
    var _ := mm.Fork();
    var _ := mm.Fork();
    var _ := mm.Exit();
    var _ := mm.Exit();
    var _ := mm.Fork();
  }
}
