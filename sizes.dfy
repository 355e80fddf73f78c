/** Sizes of falling objects: three bands chosen by one draw and filled by a second. */
module Sizes {

  const BaseSize: real := 50.0
  const SizeVariation: real := 30.0

  /** The band a first draw selects. */
  datatype Tier = Small | Medium | Large

  /** A pseudo-random draw in [0, 1), as the browser's generator yields. */
  predicate IsDraw(r: real) {
    0.0 <= r < 1.0
  }

  /** The band chosen by the first draw: 70% small, 20% medium, 10% large. */
  function TierOf(r1: real): (t: Tier)
    ensures (t == Small) == (r1 < 0.7)
    ensures (t == Large) == (r1 >= 0.9)
  {
    if r1 < 0.7 then Small else if r1 < 0.9 then Medium else Large
  }

  /** The half-open interval of sizes in a band. */
  function Low(t: Tier): real {
    match t
    case Small => BaseSize
    case Medium => BaseSize + SizeVariation
    case Large => BaseSize + 3.0 * SizeVariation
  }

  function High(t: Tier): real {
    match t
    case Small => BaseSize + SizeVariation
    case Medium => BaseSize + 3.0 * SizeVariation
    case Large => BaseSize + 6.0 * SizeVariation
  }

  /** The size, in pixels, of an object made from draws r1 (band) and r2 (offset within band). */
  function Size(r1: real, r2: real): (s: real)
    requires IsDraw(r1) && IsDraw(r2)
    ensures Low(TierOf(r1)) <= s < High(TierOf(r1))
    ensures r1 < 0.7 ==> 50.0 <= s < 80.0
    ensures 0.7 <= r1 < 0.9 ==> 80.0 <= s < 140.0
    ensures 0.9 <= r1 ==> 140.0 <= s < 230.0
    ensures 50.0 <= s < 230.0
  {
    if r1 < 0.7 then
      BaseSize + r2 * SizeVariation
    else if r1 < 0.9 then
      BaseSize + SizeVariation + r2 * SizeVariation * 2.0
    else
      BaseSize + SizeVariation * 3.0 + r2 * SizeVariation * 3.0
  }

  /** The band a size belongs to. */
  function TierOfSize(s: real): Tier {
    if s < High(Small) then Small else if s < High(Medium) then Medium else Large
  }

  /** The bands do not overlap: the band is recoverable from the size alone. */
  lemma TierRecoverable(r1: real, r2: real)
    requires IsDraw(r1) && IsDraw(r2)
    ensures TierOfSize(Size(r1, r2)) == TierOf(r1)
  {
  }

  /** Within a band the size grows with the second draw. */
  lemma SizeMonotoneInOffset(r1: real, r2: real, r2': real)
    requires IsDraw(r1) && IsDraw(r2) && IsDraw(r2')
    requires r2 < r2'
    ensures Size(r1, r2) < Size(r1, r2')
  {
  }

  /** Every size in [50, 230) is produced by some pair of draws, so that interval is exactly the range. */
  lemma SizeOnto(s: real)
    requires 50.0 <= s < 230.0
    ensures exists r1, r2 :: IsDraw(r1) && IsDraw(r2) && Size(r1, r2) == s
  {
    if s < 80.0 {
      var r2 := (s - 50.0) / 30.0;
      assert Size(0.0, r2) == s;
    } else if s < 140.0 {
      var r2 := (s - 80.0) / 60.0;
      assert Size(0.7, r2) == s;
    } else {
      var r2 := (s - 140.0) / 90.0;
      assert Size(0.9, r2) == s;
    }
  }
}
