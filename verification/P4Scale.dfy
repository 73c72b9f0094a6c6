/**
 The scale search of `present_surface_direct_` (esphome/components/p4_video_renderer/p4_video_renderer.cpp): the
 largest scale, in sixteenths, at which a picture fits the surface that receives it.
 */
module P4Scale {
  import opened Machine

  const UNITS: nat := 16

  function Scaled(pixels: nat, units: nat): nat {
    pixels * units / UNITS
  }

  /** `output_fits`: neither side vanishes and the pixels fit. */
  predicate Fits(width: nat, height: nat, capacity: nat, units: nat) {
    && Scaled(width, units) != 0 && Scaled(height, units) != 0
    && Scaled(width, units) <= capacity / Scaled(height, units)
  }

  predicate Vanishes(width: nat, height: nat, units: nat) {
    Scaled(width, units) == 0 || Scaled(height, units) == 0
  }

  predicate TooBig(width: nat, height: nat, capacity: nat, units: nat) {
    !Vanishes(width, height, units) && Scaled(width, units) * Scaled(height, units) > capacity
  }

  lemma Divides(x: nat, y: nat, capacity: nat)
    requires y > 0
    ensures x <= capacity / y <==> x * y <= capacity
  {
    var q := capacity / y;
    assert capacity == q * y + capacity % y;
    if x <= q {
      Times(x, q, y);
    } else {
      Times(q + 1, x, y);
    }
  }

  lemma Times(x: nat, z: nat, y: nat)
    requires x <= z
    ensures x * y <= z * y
  {
  }

  lemma FitsIs(width: nat, height: nat, capacity: nat, units: nat)
    ensures Fits(width, height, capacity, units) <==>
              !Vanishes(width, height, units) && !TooBig(width, height, capacity, units)
  {
    if !Vanishes(width, height, units) {
      Divides(Scaled(width, units), Scaled(height, units), capacity);
    }
  }

  lemma ScaledGrows(pixels: nat, u: nat, v: nat)
    requires u <= v
    ensures Scaled(pixels, u) <= Scaled(pixels, v)
  {
    Times(u, v, pixels);
    assert pixels * u == u * pixels && pixels * v == v * pixels;
  }

  /** A larger scale is too big where a smaller one is; a smaller scale vanishes where a larger one does. */
  lemma Monotone(width: nat, height: nat, capacity: nat, u: nat, v: nat)
    requires u <= v
    ensures TooBig(width, height, capacity, u) ==> TooBig(width, height, capacity, v)
    ensures Vanishes(width, height, v) ==> Vanishes(width, height, u)
  {
    ScaledGrows(width, u, v);
    ScaledGrows(height, u, v);
    Times(Scaled(width, u), Scaled(width, v), Scaled(height, u));
    Times(Scaled(height, u), Scaled(height, v), Scaled(width, v));
  }

  /** The search between 1 and `high` meets no scale that vanishes if one not much above `high` is too big. */
  lemma NoVanishing(width: nat, height: nat, capacity: nat, candidate: nat, big: nat)
    requires 1 <= width && 1 <= height && 2 * width <= capacity && 2 * height <= capacity
    requires 1 <= candidate && big <= 2 * candidate && TooBig(width, height, capacity, big)
    ensures !Vanishes(width, height, candidate)
  {
    if Scaled(width, candidate) == 0 {
      Sliver(width, height, capacity, candidate, big);
    }
    if Scaled(height, candidate) == 0 {
      Sliver(height, width, capacity, candidate, big);
    }
  }

  lemma Sliver(side: nat, other: nat, capacity: nat, candidate: nat, big: nat)
    requires 1 <= side && 2 * other <= capacity && big <= 2 * candidate && Scaled(side, candidate) == 0
    ensures Scaled(side, big) * Scaled(other, big) <= capacity
  {
    Times(1, side, candidate);
    assert side * candidate < 16 && candidate <= side * candidate;
    Times(big, 2 * candidate, side);
    assert side * big == big * side && 2 * candidate * side == 2 * (side * candidate);
    assert Scaled(side, big) <= 1;
    Times(big, 30, other);
    assert other * big == big * other;
    assert Scaled(other, big) <= 2 * other;
    Times(Scaled(side, big), 1, Scaled(other, big));
  }

  /** The largest fitting scale up to `initial`, if any. */
  predicate IsLargest(width: nat, height: nat, capacity: nat, initial: nat, r: Option<nat>) {
    && (r.Some? ==> 1 <= r.value <= initial && Fits(width, height, capacity, r.value))
    && forall u: nat :: 1 <= u <= initial && Fits(width, height, capacity, u) ==> r.Some? && u <= r.value
  }

  /** Where the binary search over `[low, high]` ends. */
  function Search(width: nat, height: nat, capacity: nat, low: nat, high: nat): nat
    requires low <= high
    decreases high - low
  {
    if low == high then low
    else
      var candidate := low + (high - low + 1) / 2;
      if Fits(width, height, capacity, candidate) then Search(width, height, capacity, candidate, high)
      else Search(width, height, capacity, low, candidate - 1)
  }

  /** The scale chosen, from the container's `initial` down. */
  function Chosen(width: nat, height: nat, capacity: nat, initial: nat): Option<nat> {
    if initial < 1 then None
    else
      var units := if Fits(width, height, capacity, initial) then initial else Search(width, height, capacity, 1, initial);
      if Fits(width, height, capacity, units) then Some(units) else None
  }

  method FitScale(width: nat, height: nat, capacity: nat, initial: nat) returns (r: Option<nat>)
    ensures r == Chosen(width, height, capacity, initial)
  {
    hide Fits;
    if initial < 1 {
      return None;
    }
    var units := initial;
    if !Fits(width, height, capacity, units) {
      var low, high := 1, units;
      while low < high
        invariant 1 <= low <= high
        invariant Search(width, height, capacity, 1, initial) == Search(width, height, capacity, low, high)
        decreases high - low
      {
        var candidate := low + (high - low + 1) / 2;
        if Fits(width, height, capacity, candidate) {
          low := candidate;
        } else {
          high := candidate - 1;
        }
      }
      units := low;
    }
    if !Fits(width, height, capacity, units) {
      return None;
    }
    return Some(units);
  }

  /** With room, the search ends at a scale that nothing fitting exceeds. */
  lemma {:induction false} SearchIsLargest(width: nat, height: nat, capacity: nat, low: nat, high: nat, big: nat)
    requires 1 <= width && 1 <= height && 2 * width <= capacity && 2 * height <= capacity
    requires 1 <= low <= high && big <= high + 1 && TooBig(width, height, capacity, big)
    requires low == 1 || Fits(width, height, capacity, low)
    ensures var r := Search(width, height, capacity, low, high);
            && low <= r <= high && (r == 1 || Fits(width, height, capacity, r))
            && forall u: nat :: r < u ==> !Fits(width, height, capacity, u)
    decreases high - low
  {
    hide Fits, TooBig, Vanishes;
    if low == high {
      forall u: nat | low < u
        ensures !Fits(width, height, capacity, u)
      {
        Monotone(width, height, capacity, big, u);
        FitsIs(width, height, capacity, u);
      }
    } else {
      var candidate := low + (high - low + 1) / 2;
      FitsIs(width, height, capacity, candidate);
      if Fits(width, height, capacity, candidate) {
        SearchIsLargest(width, height, capacity, candidate, high, big);
      } else {
        if low == 1 {
          NoVanishing(width, height, capacity, candidate, big);
        } else {
          FitsIs(width, height, capacity, low);
          Monotone(width, height, capacity, low, candidate);
        }
        SearchIsLargest(width, height, capacity, low, candidate - 1, candidate);
      }
    }
  }

  /**
   The scale chosen is the largest that fits, and none is chosen only if none fits, for every picture whose sides are
   at most half the capacity in pixels.
   */
  lemma ChosenIsLargest(width: nat, height: nat, capacity: nat, initial: nat)
    requires 1 <= width && 1 <= height && 2 * width <= capacity && 2 * height <= capacity
    ensures IsLargest(width, height, capacity, initial, Chosen(width, height, capacity, initial))
  {
    hide Fits, TooBig, Vanishes, Search;
    if initial >= 1 && !Fits(width, height, capacity, initial) {
      FitsIs(width, height, capacity, initial);
      if Vanishes(width, height, initial) {
        NothingFits(width, height, capacity, initial);
        SearchInRange(width, height, capacity, 1, initial);
      } else {
        SearchIsLargest(width, height, capacity, 1, initial, initial);
      }
    }
  }

  lemma {:induction false} SearchInRange(width: nat, height: nat, capacity: nat, low: nat, high: nat)
    requires low <= high
    ensures low <= Search(width, height, capacity, low, high) <= high
    decreases high - low
  {
    hide Fits;
    if low < high {
      var candidate := low + (high - low + 1) / 2;
      SearchInRange(width, height, capacity, candidate, high);
      SearchInRange(width, height, capacity, low, candidate - 1);
    }
  }

  lemma NothingFits(width: nat, height: nat, capacity: nat, initial: nat)
    requires Vanishes(width, height, initial)
    ensures forall u: nat :: u <= initial ==> !Fits(width, height, capacity, u)
  {
    forall u: nat | u <= initial
      ensures !Fits(width, height, capacity, u)
    {
      Monotone(width, height, capacity, u, initial);
      FitsIs(width, height, capacity, u);
    }
  }

  /** The decoder's own guard, that the picture's padded storage fits the surface, gives the room the search needs. */
  lemma DecodedPicturesHaveRoom(width: nat, height: nat, storageWidth: nat, storageHeight: nat, capacity: nat)
    requires width <= storageWidth && height <= storageHeight && 8 <= storageWidth && 8 <= storageHeight
    requires storageWidth * storageHeight <= capacity
    ensures 2 * width <= capacity && 2 * height <= capacity
  {
    Times(8, storageHeight, storageWidth);
    Times(8, storageWidth, storageHeight);
  }

  /** Without that room the search can miss: a sliver of 1 by 1000 pixels fits at 16 units, and nothing is chosen. */
  lemma SliverIsMissed()
    ensures Fits(1, 1000, 1000, 16) && Chosen(1, 1000, 1000, 20) == None
  {
    assert !Fits(1, 1000, 1000, 20) && !Fits(1, 1000, 1000, 11) && !Fits(1, 1000, 1000, 6);
    assert !Fits(1, 1000, 1000, 3) && !Fits(1, 1000, 1000, 2) && !Fits(1, 1000, 1000, 1);
    assert Search(1, 1000, 1000, 1, 5) == Search(1, 1000, 1000, 1, 2) == 1;
  }
}
