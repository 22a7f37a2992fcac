/** The probe sequence of the open hash table (src/table.h, `iterate_buckets`). */
module Probing {
  import opened Basics

  /** Keys are byte strings; `key_eq` compares contents. */
  type Key = Bytes

  /** A table's fixed parameters. `hash` stands for `key_hash`, any function of the key's contents. */
  datatype Config = Config(lg2size: nat, hash: (Key, nat) -> nat)

  /** Width of `hash_t`. */
  const HASH_BITS: int := 128

  function Size(c: Config): (r: nat)
    ensures r >= 1
  {
    Two(c.lg2size)
  }

  /** The locals of the probe loop: remaining hash bits, their number, the next seed, the bucket. */
  datatype Cursor = Cursor(h: nat, bits: int, seed: nat, i: nat)

  function Start(c: Config, key: Key): Cursor {
    Cursor(c.hash(key, 0), HASH_BITS, 1, 0)
  }

  /** The top half of the loop body: rehash when the bits run out, then move to the next bucket. */
  function Locate(c: Config, key: Key, cur: Cursor): (r: Cursor)
    ensures r.i < Size(c)
  {
    var fed := if cur.bits < c.lg2size then cur.(h := c.hash(key, cur.seed), bits := HASH_BITS, seed := cur.seed + 1)
               else cur;
    fed.(i := (fed.i + fed.h) % Size(c))
  }

  function Quotient(a: nat, d: nat): nat
    requires d >= 1
  {
    a / d
  }

  /** The bottom half: drop the bits just used. */
  function Shift(c: Config, cur: Cursor): Cursor {
    cur.(h := Quotient(cur.h, Size(c)), bits := cur.bits - c.lg2size)
  }

  function CursorAt(c: Config, key: Key, j: nat): (r: Cursor)
    ensures r.i < Size(c)
  {
    if j == 0 then Locate(c, key, Start(c, key)) else Locate(c, key, Shift(c, CursorAt(c, key, j - 1)))
  }

  /** The bucket examined by probe number `j` for `key`. */
  function Probe(c: Config, key: Key, j: nat): (b: nat)
    ensures b < Size(c)
  {
    CursorAt(c, key, j).i
  }
}
