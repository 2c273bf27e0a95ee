/** The arguments a client passes when it asks for a named haptic asset, and
    the `hash_combine` fold that hashes them (src/Plugin/HapticArgs.h).

    `std::size_t` is taken as 64 bits wide, so the fold works on `bv64`, whose
    `+`, `<<` and `>>` wrap exactly as unsigned C++ arithmetic does. The
    element hash `std::hash<T>` is not modelled: it is a parameter. */
module HapticArgs {
  import opened Outcomes
  import opened EnumTranslator

  /** The three argument records. A sequence carries the area flag it plays on
      (as the numeric value of the `AreaFlag` bit set) and a strength; a
      pattern and an experience carry a side. All three carry the asset name. */
  datatype Args =
    | SequenceArgs(name: string, location: uint32, strength: real)
    | PatternArgs(name: string, side: Side)
    | ExperienceArgs(name: string, side: Side)

  /** `ToString`: every argument record prints as its asset name. */
  function ToString(a: Args): string
  {
    a.name
  }

  /** The golden-ratio constant `hash_combine` adds at every step. */
  const GoldenRatio: bv64 := 0x9e3779b9

  /** One step of `hash_combine`: mixes the hash `h` of one value into `seed`. */
  function HashStep(seed: bv64, h: bv64): bv64
  {
    seed ^ (h + GoldenRatio + (seed << 6) + (seed >> 2))
  }

  /** `hash_combine(seed, v1, ..., vn)`: the variadic template peels off the
      first value, mixes its hash into the seed, and recurses on the rest with
      the updated seed; with no values left, the seed is unchanged. */
  function HashCombine<T>(hash: T -> bv64, seed: bv64, vs: seq<T>): bv64
    decreases |vs|
  {
    if |vs| == 0 then seed else HashCombine(hash, HashStep(seed, hash(vs[0])), vs[1..])
  }

  /** With no further values `hash_combine` leaves the seed alone, and with
      one value it applies exactly one mixing step. */
  lemma HashCombineBase<T>(hash: T -> bv64, seed: bv64, v: T)
    ensures HashCombine(hash, seed, []) == seed
    ensures HashCombine(hash, seed, [v]) == HashStep(seed, hash(v))
  {
    assert [v][1..] == [];
  }

  /** Combining `a + b` is combining `a` first and then `b` into the seed that
      `a` produced: the values are folded strictly left to right. */
  lemma {:induction false} HashCombineAppend<T>(hash: T -> bv64, seed: bv64, a: seq<T>, b: seq<T>)
    ensures HashCombine(hash, seed, a + b) == HashCombine(hash, HashCombine(hash, seed, a), b)
    decreases |a|
  {
    if |a| > 0 {
      assert (a + b)[0] == a[0];
      assert (a + b)[1..] == a[1..] + b;
      HashCombineAppend(hash, HashStep(seed, hash(a[0])), a[1..], b);
    } else {
      assert a + b == b;
    }
  }

  /** The same fold written from the other end: the last value is mixed into
      the seed that all the earlier ones produced. */
  function HashFoldLast<T>(hash: T -> bv64, seed: bv64, vs: seq<T>): bv64
    decreases |vs|
  {
    if |vs| == 0 then seed else HashStep(HashFoldLast(hash, seed, vs[..|vs| - 1]), hash(vs[|vs| - 1]))
  }

  /** The recursive template computes the left fold of `HashStep` over the values. */
  lemma {:induction false} HashCombineIsLeftFold<T>(hash: T -> bv64, seed: bv64, vs: seq<T>)
    ensures HashCombine(hash, seed, vs) == HashFoldLast(hash, seed, vs)
    decreases |vs|
  {
    if |vs| > 0 {
      var init, last := vs[..|vs| - 1], vs[|vs| - 1];
      assert vs == init + [last];
      HashCombineAppend(hash, seed, init, [last]);
      HashCombineIsLeftFold(hash, seed, init);
      HashCombineBase(hash, HashCombine(hash, seed, init), last);
    }
  }
}
