/** 64-bit counters, and the start of an hour. */
module Numbers {

  const U64 := 0x1_0000_0000_0000_0000
  const HOUR := 3_600

  function Min(a: nat, b: nat): nat {
    if a <= b then a else b
  }

  function Max(a: nat, b: nat): nat {
    if a <= b then b else a
  }

  /** What a saturating 64-bit counter shows. */
  function Capped(n: int): nat {
    if n < 0 then 0 else if n >= U64 then U64 - 1 else n
  }

  /** What a wrapping 64-bit counter shows. */
  function Wrapped(n: int): nat {
    n % U64
  }

  function SaturatingAdd(a: nat, b: nat): nat {
    Capped(a + b)
  }

  function SaturatingSub(a: nat, b: nat): nat {
    Capped(a - b)
  }

  /** The start of the hour of a clock reading in seconds. */
  function FloorHour(seconds: nat): (hour: nat)
    ensures hour <= seconds < hour + HOUR && hour % HOUR == 0
  {
    seconds - seconds % HOUR
  }
}
