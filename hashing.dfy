/** `hashing::hash_combine` and the tuple hash built on it. */
module Hashing {

  /** A `std::size_t`: 64 bits, addition and shifts wrap modulo 2^64. */
  type Word = bv64

  /** The constant `hash_combine` adds to every value hash. */
  const GOLDEN: Word := 0x9e3779b9

  /** One scalar member of a hashed tuple, tagged by its C++ type. */
  datatype Field =
    | Bool(b: bool)
    | Enum(code: nat)
    | UInt(n: nat)
    | Float(bits: bv32)
    | Size(w: Word)

  /** `std::hash<T>` for each field type. The standard library chooses it, so
      every result about hashes below holds for every such function. */
  type FieldHasher = Field -> Word

  /** Recovers the value hash from the seed before and after one combine. */
  function Unmix(seed: Word, mixed: Word): Word
  {
    (mixed ^ seed) - GOLDEN - (seed << 6) - (seed >> 2)
  }

  /** The arithmetic of `hash_combine` once `std::hash` has produced `h`. For a
      fixed seed it loses nothing: distinct value hashes give distinct seeds. */
  function Mix(seed: Word, h: Word): (r: Word)
    ensures Unmix(seed, r) == h
  {
    XorCancel(seed, h + GOLDEN + (seed << 6) + (seed >> 2));
    AddCancel(seed, h);
    seed ^ (h + GOLDEN + (seed << 6) + (seed >> 2))
  }

  /** Xor with the seed undoes itself. */
  lemma XorCancel(seed: Word, x: Word)
    ensures (x ^ seed) ^ seed == x
  {
  }

  /** Subtracting the seed terms undoes adding them, in wrapping arithmetic. */
  lemma AddCancel(seed: Word, h: Word)
    ensures (h + GOLDEN + (seed << 6) + (seed >> 2)) - GOLDEN - (seed << 6) - (seed >> 2) == h
  {
  }

  /** `hash_combine(seed, v)`: the new value of `seed`, from which the old seed
      recovers the member's own hash. */
  function HashCombine(hf: FieldHasher, seed: Word, v: Field): (r: Word)
    ensures Unmix(seed, r) == hf(v)
  {
    Mix(seed, hf(v))
  }

  /** `HashValueImpl<Tuple, Index>::apply(seed, tuple)` over the first `|t|`
      members: fold the prefix first, then combine the last member. */
  function HashValueApply(hf: FieldHasher, seed: Word, t: seq<Field>): (r: Word)
    ensures |t| == 1 ==> r == HashCombine(hf, seed, t[0])
    decreases |t|
  {
    if t == [] then seed
    else HashCombine(hf, HashValueApply(hf, seed, t[..|t| - 1]), t[|t| - 1])
  }

  /** `hashing::hash<std::tuple<...>>`: the fold starts from seed 0. */
  function TupleHash(hf: FieldHasher, t: seq<Field>): (r: Word)
    ensures r == FoldLeft(hf, 0, t)
  {
    HashValueApplyIsFoldLeft(hf, 0, t);
    HashValueApply(hf, 0, t)
  }

  /** Reference definition: the left fold of `hash_combine`, first member first. */
  function FoldLeft(hf: FieldHasher, seed: Word, t: seq<Field>): Word
    decreases |t|
  {
    if t == [] then seed else FoldLeft(hf, HashCombine(hf, seed, t[0]), t[1..])
  }

  /** Folding a concatenation folds the first part, then the second from there. */
  lemma {:induction false} HashValueApplyAppend(hf: FieldHasher, seed: Word, a: seq<Field>, b: seq<Field>)
    ensures HashValueApply(hf, seed, a + b) == HashValueApply(hf, HashValueApply(hf, seed, a), b)
    decreases |b|
  {
    if b == [] {
      assert a + b == a;
    } else {
      var b' := b[..|b| - 1];
      assert (a + b)[..|a + b| - 1] == a + b';
      assert (a + b)[|a + b| - 1] == b[|b| - 1];
      HashValueApplyAppend(hf, seed, a, b');
    }
  }

  /** The recursive template computes exactly the left fold of `hash_combine`
      over the members in index order. */
  lemma {:induction false} HashValueApplyIsFoldLeft(hf: FieldHasher, seed: Word, t: seq<Field>)
    ensures HashValueApply(hf, seed, t) == FoldLeft(hf, seed, t)
    decreases |t|
  {
    if t != [] {
      calc {
        HashValueApply(hf, seed, t);
        { assert t == [t[0]] + t[1..]; HashValueApplyAppend(hf, seed, [t[0]], t[1..]); }
        HashValueApply(hf, HashValueApply(hf, seed, [t[0]]), t[1..]);
        { assert [t[0]][..0] == []; }
        HashValueApply(hf, HashCombine(hf, seed, t[0]), t[1..]);
        { HashValueApplyIsFoldLeft(hf, HashCombine(hf, seed, t[0]), t[1..]); }
        FoldLeft(hf, HashCombine(hf, seed, t[0]), t[1..]);
      }
    }
  }

  /** The combining is not commutative: with the identity hash on `size_t`
      (what libstdc++ uses), swapping two members changes the tuple hash. */
  lemma OrderMatters(hf: FieldHasher)
    requires hf(Size(1)) == 1 && hf(Size(2)) == 2
    ensures TupleHash(hf, [Size(1), Size(2)]) != TupleHash(hf, [Size(2), Size(1)])
  {
    assert [Size(1), Size(2)][..1] == [Size(1)];
    assert [Size(2), Size(1)][..1] == [Size(2)];
    assert [Size(1)][..0] == [] && [Size(2)][..0] == [];
  }
}
