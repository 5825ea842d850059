// Synchronised events: the firing time that the server stamps, and the
// client's wait for it.
module SyncClock {
  import opened Bytes

  const BILLION: int := 1_000_000_000
  const MILLION: int := 1_000_000
  const TWO32: int := 0x1_0000_0000

  datatype Time = Time(sec: int, nsec: int)

  // What clock_gettime can return.
  predicate Reading(t: Time) {
    t.sec >= 0 && 0 <= t.nsec < BILLION
  }

  // A time as one number.
  function Nanos(t: Time): int {
    t.sec * BILLION + t.nsec
  }

  // The target that the server computes from its clock and an offset in
  // milliseconds: at most one second is carried, and a full second is not.
  function Target(now: Time, offset: int): Time {
    var nsec := now.nsec + offset * MILLION;
    if nsec > BILLION then Time(now.sec + 1, nsec - BILLION) else Time(now.sec, nsec)
  }

  // The two 32-bit fields of the header.
  datatype SyncData = SyncData(data0: int, data1: int)

  function Stamp(now: Time, offset: int): SyncData {
    var t := Target(now, offset);
    SyncData(t.sec % TWO32, t.nsec % TWO32)
  }

  // The server's calculation, on the reading of its clock.
  method SyncCalculate(now: Time, offset: int) returns (sync: SyncData)
    ensures sync == Stamp(now, offset)
  {
    var sec, nsec := now.sec, now.nsec + offset * MILLION;
    if nsec > BILLION {
      nsec := nsec - BILLION;
      sec := sec + 1;
    }
    sync := SyncData(sec % TWO32, nsec % TWO32);
  }

  function TimeOf(s: SyncData): Time {
    Time(s.data0, s.data1)
  }

  // The stamp is the server's time plus the offset, to the nanosecond, just
  // when both fields hold what is stored in them.
  lemma StampExactIff(now: Time, offset: int)
    requires Reading(now)
    ensures Nanos(Target(now, offset)) == Nanos(now) + offset * MILLION
    ensures TimeOf(Stamp(now, offset)) == Target(now, offset)
       <==> Target(now, offset).sec < TWO32 && 0 <= Target(now, offset).nsec < TWO32
  {
  }

  // For the offsets below one second the nanoseconds stay within a second,
  // both ends included, and the stamp is exact until the seconds run out of
  // 32 bits.
  lemma StampWithinASecond(now: Time, offset: int)
    requires Reading(now) && 0 <= offset <= 999
    ensures 0 <= Target(now, offset).nsec <= BILLION
    ensures now.sec < TWO32 - 1 ==> Nanos(TimeOf(Stamp(now, offset))) == Nanos(now) + offset * MILLION
  {
    StampExactIff(now, offset);
  }

  // The offsets for which the nanoseconds are always within a second.
  lemma NormalisedIff(offset: int)
    ensures (forall now | Reading(now) :: 0 <= Target(now, offset).nsec <= BILLION) <==> 0 <= offset <= 1000
  {
    var early, late := Time(0, 0), Time(0, BILLION - 1);
    assert Reading(early) && Reading(late);
    if forall now | Reading(now) :: 0 <= Target(now, offset).nsec <= BILLION {
      assert 0 <= Target(early, offset).nsec;
      assert Target(late, offset).nsec <= BILLION;
    }
  }

  // ------------------------------------------------------------ the client

  // The client compares seconds and nanoseconds field by field.
  predicate Passed(target: Time, now: Time) {
    target.sec - now.sec < 0 || (target.sec == now.sec && target.nsec - now.nsec < 0)
  }

  predicate FarAhead(target: Time, now: Time) {
    target.sec - now.sec > 1
  }

  // What a wait can end on: the target is passed, or given up as too far.
  predicate Fires(target: Time, now: Time) {
    Passed(target, now) || FarAhead(target, now)
  }

  // The wait, over the readings the clock will give: it ends on the first
  // reading that is past the target or more than a second of seconds short of
  // it; None while it is still going on.
  method WaitSync(sync: SyncData, clock: seq<Time>) returns (fired: Option<nat>)
    ensures fired.Some? ==> fired.value < |clock|
    ensures fired.Some? ==> Fires(TimeOf(sync), clock[fired.value])
    ensures forall i | 0 <= i < |clock| && (fired.Some? ==> i < fired.value) :: !Fires(TimeOf(sync), clock[i])
  {
    var target := TimeOf(sync);
    var i := 0;
    while i < |clock|
      invariant 0 <= i <= |clock|
      invariant forall j | 0 <= j < i :: !Fires(target, clock[j])
    {
      var now := clock[i];
      var sec, nsec := target.sec - now.sec, target.nsec - now.nsec;
      if sec < 0 || (sec == 0 && nsec < 0) || sec > 1 {
        return Some(i);
      }
      i := i + 1;
    }
    return None;
  }

  // Comparing the fields is comparing the times, except that a target with a
  // full second of nanoseconds counts as passed when it is reached.
  lemma PassedByTime(target: Time, now: Time)
    requires 0 <= target.nsec <= BILLION && Reading(now)
    ensures Passed(target, now)
       <==> Nanos(now) > Nanos(target) || (target.nsec == BILLION && Nanos(now) == Nanos(target))
  {
  }

  // The wait can end before the target only when it is more than one second
  // away, and always ends there when it is more than two.
  lemma EarlyOnlyIfFar(target: Time, now: Time)
    requires 0 <= target.nsec <= BILLION && Reading(now)
    ensures FarAhead(target, now) ==> Nanos(target) - Nanos(now) > BILLION
    ensures Nanos(target) - Nanos(now) > 2 * BILLION ==> FarAhead(target, now)
  {
  }

  // The least distance from which a wait for a stamp with this offset gives
  // up: one second and one or two nanoseconds.
  function NearestGivenUp(offset: int): int {
    BILLION + if offset == 0 then 1 else 2
  }

  // No wait that ends, ends before the target, whatever the server's clock
  // shows and however the client's clock stands against it within the lag.
  ghost predicate NeverEarly(offset: int, lag: int) {
    forall server: Time, now: Time ::
      Reading(server) && server.sec < TWO32 - 1 && Reading(now) && Nanos(now) >= Nanos(server) - lag
      && Fires(TimeOf(Stamp(server, offset)), now)
      ==> Nanos(now) >= Nanos(server) + offset * MILLION
  }

  lemma GivenUpFromAfar(server: Time, offset: int, now: Time)
    requires Reading(server) && server.sec < TWO32 - 1 && Reading(now) && 0 <= offset <= 999
    requires FarAhead(TimeOf(Stamp(server, offset)), now)
    ensures Nanos(server) + offset * MILLION - Nanos(now) >= NearestGivenUp(offset)
  {
    StampWithinASecond(server, offset);
    StampExactIff(server, offset);
  }

  // A reading of the server's clock, and one of the client's, between which
  // the wait gives up at the least distance.
  lemma NearestExists(offset: int) returns (server: Time, now: Time)
    requires 0 <= offset <= 999
    ensures Reading(server) && server.sec < TWO32 - 1 && Reading(now)
    ensures FarAhead(TimeOf(Stamp(server, offset)), now)
    ensures Nanos(server) + offset * MILLION - Nanos(now) == NearestGivenUp(offset)
  {
    server := if offset == 0 then Time(2, 0) else Time(2, BILLION + 1 - offset * MILLION);
    now := Time(if offset == 0 then 0 else 1, BILLION - 1);
    StampExactIff(server, offset);
  }

  // For the offsets below one second, a client never fires early exactly when
  // its lag and the offset together are at most a second, and a nanosecond
  // more if there is an offset.
  lemma NeverEarlyIff(offset: int, lag: int)
    requires 0 <= offset <= 999
    ensures NeverEarly(offset, lag) <==> lag + offset * MILLION <= BILLION + if offset == 0 then 0 else 1
  {
    if lag + offset * MILLION < NearestGivenUp(offset) {
      forall server: Time, now: Time |
        Reading(server) && server.sec < TWO32 - 1 && Reading(now) && Nanos(now) >= Nanos(server) - lag
        && Fires(TimeOf(Stamp(server, offset)), now)
        ensures Nanos(now) >= Nanos(server) + offset * MILLION
      {
        StampWithinASecond(server, offset);
        StampExactIff(server, offset);
        if Passed(TimeOf(Stamp(server, offset)), now) {
          PassedByTime(TimeOf(Stamp(server, offset)), now);
        } else {
          GivenUpFromAfar(server, offset, now);
        }
      }
    } else {
      var server, now := NearestExists(offset);
      assert Fires(TimeOf(Stamp(server, offset)), now);
    }
  }

  // In particular when the lag and the offset make no more than a second.
  lemma NeverEarlyWithinASecond(offset: int, lag: int)
    requires 0 <= offset <= 999 && lag + offset * MILLION <= BILLION
    ensures NeverEarly(offset, lag)
  {
    NeverEarlyIff(offset, lag);
  }
}
