/** Conversion of integer satoshi amounts to BTC (`_sats_to_btc`).

    The source computes `round(sats / 100_000_000, 8)`. Here the division is
    exact (Dafny `real`) and `round(_, 8)` rounds half to even, as Python's
    `round` does; the lemmas show that for integer satoshis the rounding never
    changes the exact quotient. */
module Amounts {

  /** Satoshis per bitcoin. */
  const SatsPerBtc: int := 100_000_000

  /** The integer nearest to `y`, ties going to the even neighbour. */
  function RoundHalfEven(y: real): (r: int)
    ensures -0.5 <= r as real - y <= 0.5
    ensures r as real - y == 0.5 || y - r as real == 0.5 ==> r % 2 == 0
  {
    var f := y.Floor;
    var d := y - f as real;
    if d < 0.5 then f
    else if d > 0.5 then f + 1
    else if f % 2 == 0 then f
    else f + 1
  }

  /** `round(x, 8)`: `x` rounded to the nearest multiple of 10^-8. */
  function Round8(x: real): (r: real)
    ensures r * SatsPerBtc as real == RoundHalfEven(x * SatsPerBtc as real) as real
    ensures -0.5 <= (r - x) * SatsPerBtc as real <= 0.5
  {
    RoundHalfEven(x * SatsPerBtc as real) as real / SatsPerBtc as real
  }

  /** An integer is its own nearest integer. */
  lemma RoundHalfEvenOfInteger(n: int)
    ensures RoundHalfEven(n as real) == n
  {
  }

  /** `_sats_to_btc`: the BTC amount of `sats` satoshis, which is exactly
      `sats / 10^8`. */
  function SatsToBtc(sats: int): (btc: real)
    ensures btc * SatsPerBtc as real == sats as real
    ensures sats >= 0 ==> btc >= 0.0
  {
    var exact := sats as real / SatsPerBtc as real;
    assert exact * SatsPerBtc as real == sats as real;
    RoundHalfEvenOfInteger(sats);
    Round8(exact)
  }

  /** The inverse conversion: the satoshis in a BTC amount, rounded down. */
  function BtcToSats(btc: real): (sats: int) {
    (btc * SatsPerBtc as real).Floor
  }

  /** Converting to BTC loses nothing: the satoshis come back unchanged. */
  lemma SatsRoundTrip(sats: int)
    ensures BtcToSats(SatsToBtc(sats)) == sats
  {
  }

  /** Distinct satoshi amounts give distinct BTC amounts. */
  lemma SatsToBtcInjective(a: int, b: int)
    ensures SatsToBtc(a) == SatsToBtc(b) <==> a == b
  {
  }

  /** The amounts that the analyzer's own scenario expects. */
  lemma ConversionExamples()
    ensures SatsToBtc(200) == 0.000002
    ensures SatsToBtc(210000) == 0.0021
    ensures SatsToBtc(190000) == 0.0019
    ensures SatsToBtc(19900) == 0.000199
    ensures SatsToBtc(0) == 0.0
  {
  }
}
