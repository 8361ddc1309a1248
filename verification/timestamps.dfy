/** `Timestamp`: an epoch-millisecond reading tagged with the clock it came from. */
module Timestamps {
  import opened Wrappers
  import opened Ints
  import opened Errors
  import opened Decimal

  /** Server readings below this are whole seconds; at or above it, milliseconds.
      10^12 ms is 2001-09-09 01:46:40 UTC. */
  const THRESHOLD: int := 1_000_000_000_000

  datatype Timestamp = Timestamp(ts: U64, fromServer: bool)

  /** `Timestamp::new_server`: an absent reading is a failure naming "timestamp"; a reading in
      seconds is scaled to milliseconds, one already in milliseconds is kept. The scaled value
      stays below 10^15, so the multiplication never overflows `u64`. */
  function NewServer(raw: Option<U64>): (r: Result<Timestamp, Error>)
    ensures raw.None? ==> r == Failure(MissingField("timestamp"))
    ensures raw.Some? ==> r.Success? && r.value.fromServer
    ensures raw.Some? && raw.value < THRESHOLD ==> r.value.ts == raw.value * 1000
    ensures raw.Some? && raw.value >= THRESHOLD ==> r.value.ts == raw.value
  {
    var t :- Required(raw, "timestamp");
    var ms := if t < THRESHOLD then t * 1000 else t;
    Success(Timestamp(ms, true))
  }

  /** `Timestamp::new_local`: the local clock's millisecond reading (an `i64`) cast to `u64`,
      tagged as local. The clock read itself is the parameter. */
  function NewLocal(clockMillis: I64): (t: Timestamp)
    ensures !t.fromServer
    ensures (t.ts - clockMillis) % U64_LIMIT == 0
  {
    Timestamp(I64AsU64(clockMillis), false)
  }

  /** `Display for Timestamp`: the millisecond value in decimal, then `S` for a server
      reading or `C` for a local one. */
  function Show(t: Timestamp): (s: string)
    ensures |s| >= 2
    ensures s[|s| - 1] == (if t.fromServer then 'S' else 'C')
    ensures AllDigits(s[..|s| - 1])
  {
    ToDecimal(t.ts) + [if t.fromServer then 'S' else 'C']
  }

  /** Reads back what `Show` writes. */
  function ParseShown(s: string): Option<Timestamp> {
    if |s| < 2 || s[|s| - 1] !in {'S', 'C'} then None
    else
      match ParseDecimal(s[..|s| - 1])
      case Some(n) => if n < U64_LIMIT then Some(Timestamp(n, s[|s| - 1] == 'S')) else None
      case None => None
  }

  /** The displayed form of a timestamp determines it completely. */
  lemma ShowRoundTrip(t: Timestamp)
    ensures ParseShown(Show(t)) == Some(t)
  {
    var s := Show(t);
    assert s[..|s| - 1] == ToDecimal(t.ts);
    ParseAfterPrint(t.ts);
  }

  /** Two timestamps display alike only when they are equal. */
  lemma ShowInjective(t: Timestamp, u: Timestamp)
    ensures Show(t) == Show(u) ==> t == u
  {
    ShowRoundTrip(t);
    ShowRoundTrip(u);
  }

  /** From 2001-09-09 on, a server reading in seconds and the same instant in milliseconds
      normalise to the same timestamp. */
  lemma SecondsAndMillisAgree(s: U64)
    requires THRESHOLD / 1000 <= s < THRESHOLD
    ensures NewServer(Some(s)) == NewServer(Some(s * 1000))
  {
  }

  /** Normalising is idempotent on readings from 2001-09-09 on: what comes out reads as
      milliseconds when fed back in. */
  lemma NormaliseIdempotent(raw: U64)
    requires raw >= THRESHOLD / 1000
    ensures NewServer(Some(NewServer(Some(raw)).value.ts)) == NewServer(Some(raw))
  {
  }
}
