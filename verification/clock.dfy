/** The clock the services share: its readings, in the order they are taken. */
module Clocks {
  import opened Domain

  class Clock {
    const at: nat -> Time
    var ticks: nat

    constructor (at: nat -> Time)
      ensures this.at == at && ticks == 0
    {
      this.at := at;
      ticks := 0;
    }

    method Now() returns (now: Time)
      modifies this
      ensures now == at(old(ticks)) && ticks == old(ticks) + 1
    {
      now := at(ticks);
      ticks := ticks + 1;
    }
  }
}
