/** struct timeval and the macros of evutil.h on it. */
module Timeval {

  const MICROS := 1000000

  datatype Time = Time(sec: int, usec: int)

  predicate Normal(t: Time) {
    0 <= t.usec < MICROS
  }

  function Micros(t: Time): (n: int) {
    t.sec * MICROS + t.usec
  }

  /** evutil_timercmp with > */
  predicate Later(a: Time, b: Time) {
    if a.sec == b.sec then a.usec > b.usec else a.sec > b.sec
  }

  /** evutil_timeradd */
  function Add(a: Time, b: Time): (t: Time) {
    var usec := a.usec + b.usec;
    if usec >= MICROS then Time(a.sec + b.sec + 1, usec - MICROS) else Time(a.sec + b.sec, usec)
  }

  /** evutil_timersub */
  function Sub(a: Time, b: Time): (t: Time) {
    var usec := a.usec - b.usec;
    if usec < 0 then Time(a.sec - b.sec - 1, usec + MICROS) else Time(a.sec - b.sec, usec)
  }

  /** On normalised times the three macros are comparison, sum and difference of microseconds. */
  lemma TimesAreMicros(a: Time, b: Time)
    requires Normal(a) && Normal(b)
    ensures Later(a, b) <==> Micros(a) > Micros(b)
    ensures Normal(Add(a, b)) && Micros(Add(a, b)) == Micros(a) + Micros(b)
    ensures Normal(Sub(a, b)) && Micros(Sub(a, b)) == Micros(a) - Micros(b)
    ensures Sub(Add(a, b), b) == a
  {}

  /** A difference is one of microseconds whatever the arguments. */
  lemma SubIsMicros(a: Time, b: Time)
    ensures Micros(Sub(a, b)) == Micros(a) - Micros(b)
  {
  }

  /** Two deadlines that every correction of the clock leaves in order. Only a deadline whose microseconds
      were never normalised can be overtaken, by one in the next second. */
  predicate Steady(a: Time, b: Time) {
    !(b.sec == a.sec + 1 && b.usec + MICROS < a.usec && b.usec + 1 < MICROS && 0 <= a.usec)
  }

  /** Subtracting the same normalised amount from two deadlines keeps their order, for all amounts, if and
      only if they are steady. */
  lemma SubKeepsOrder(a: Time, b: Time)
    requires !Later(a, b)
    ensures (forall d :: Normal(d) ==> !Later(Sub(a, d), Sub(b, d))) <==> Steady(a, b)
  {
    if !Steady(a, b) {
      var d := Time(0, if b.usec + 1 < 0 then 0 else b.usec + 1);
      assert Normal(d) && Later(Sub(a, d), Sub(b, d));
    }
  }
}
