/** The clock as an object beside the gateway it drives (q-runtime: clock.rs). */
module ClockService {
  import opened Machine
  import opened GatewayState
  import opened GatewayGuards
  import opened GatewayService
  import opened Clocks

  class ChainClock {
    const pace: Pace
    const firstBoot: Option<(u64, u64)>
    var origin: Option<(u64, nat)>
    var epochMoved: Option<nat>
    var fresh_: bool

    ghost function Abstract(): Clock
      reads this
    {
      Clock(origin, epochMoved, fresh_, firstBoot)
    }

    constructor (pace: Pace, firstBoot: Option<(u64, u64)>)
      ensures this.pace == pace && Abstract() == Clock(None, None, false, firstBoot)
    {
      this.pace := pace;
      this.firstBoot := firstBoot;
      origin, epochMoved, fresh_ := None, None, false;
    }

    /** The origin is fixed on the first tick that may trust a height. */
    method Fix(g: Gateway, reported: u64, s: Sight) returns (ok: bool)
      modifies this, g`guard
      ensures (Abstract(), g.guard, ok) == Anchor(old(Abstract()), old(g.guard), reported, s)
      ensures ok ==> origin.Some?
    {
      if origin.Some? {
        return true;
      }
      fresh_ := g.guard.height == 0;
      if fresh_ {
        if firstBoot.None? {
          return false;
        }
        g.guard := AdvanceTo(g.guard, Min(Min(reported, firstBoot.value.0), s.headCap));
      }
      origin := Some((g.guard.height, s.now));
      return true;
    }

    /** `ChainClock::tick`, the chain's answer given; None is the error. */
    method Tick(g: Gateway, s: Sight) returns (height: Option<u64>, ghost moved: Option<u64>)
      modifies this, g
      ensures (Abstract(), g.guard, moved) == Clocks.Tick(pace, old(Abstract()), old(g.guard), old(g.currentEpoch), s)
      ensures g.TheBooks() == if moved.Some? then AdvanceEpoch(old(g.TheBooks()), moved.value) else old(g.TheBooks())
      ensures g.TheLimits() == old(g.TheLimits()) && g.TheReserve() == old(g.TheReserve())
      ensures height.Some? ==> height.value == g.guard.height
    {
      if s.answer.None? {
        return None, None;
      }
      var (reported, heard) := s.answer.value;
      var ok := Fix(g, reported, s);
      if !ok {
        return None, None;
      }
      var (from, at) := origin.value;
      var head := Min(BoundedHead(pace, Some((from, Since(s.now, at))), reported), s.headCap);
      g.guard := AdvanceTo(g.guard, head);
      moved := None;
      if heard.Some? && MovesEpoch(pace, Clock(origin, epochMoved, fresh_, firstBoot), s.now, heard.value, g.currentEpoch) {
        g.AdvanceEpochTo(heard.value);
        epochMoved := Some(s.now);
        moved := heard;
      }
      height := Some(g.guard.height);
    }
  }
}
