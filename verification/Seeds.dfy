/** The hash seeds of a supernode's columns: sketch i starts at base + i * columns
    (src/supernode.cpp), and its column c adds 5 * c (include/l0_sampling/sketch.h). */
module Seeds {
  import opened Sketches

  /** No two columns, of whichever sketches, share a seed. */
  ghost predicate SeedsDistinct(cfg: Config)
  {
    forall i: nat, c: nat, i': nat, c': nat
      {:trigger ColumnSeed(SeedOf(cfg, i), c), ColumnSeed(SeedOf(cfg, i'), c')} |
      i < cfg.sketches && i' < cfg.sketches && c < cfg.columns && c' < cfg.columns ::
      ColumnSeed(SeedOf(cfg, i), c) == ColumnSeed(SeedOf(cfg, i'), c') ==> i == i' && c == c'
  }

  /** The seeds are distinct exactly if the number of columns is not a multiple of 5. */
  lemma DistinctIff(cfg: Config)
    requires cfg.sketches >= 2 && cfg.columns >= 1
    ensures SeedsDistinct(cfg) <==> cfg.columns % 5 != 0
  {
    if cfg.columns % 5 == 0 {
      assert ColumnSeed(SeedOf(cfg, 1), 0) == ColumnSeed(SeedOf(cfg, 0), cfg.columns / 5);
    } else {
      forall i: nat, c: nat, i': nat, c': nat |
        i < cfg.sketches && i' < cfg.sketches && c < cfg.columns && c' < cfg.columns &&
        ColumnSeed(SeedOf(cfg, i), c) == ColumnSeed(SeedOf(cfg, i'), c')
        ensures i == i' && c == c'
      {
        if i <= i' {
          Apart(cfg.columns, i, c, i', c');
        } else {
          Apart(cfg.columns, i', c', i, c);
        }
      }
    }
  }

  lemma Apart(columns: nat, i: nat, c: nat, i': nat, c': nat)
    requires columns % 5 != 0 && i <= i' && c < columns && c' < columns
    requires i * columns + c * 5 == i' * columns + c' * 5
    ensures i == i' && c == c'
  {
    var d, k := i' - i, c - c';
    assert d * columns == 5 * k by { Distribute(i', i, columns); }
    FiveDivides(d, columns, k);
    Fifth(d, columns, k);
    AtLeast(d / 5, columns);
  }

  lemma Distribute(a: int, b: int, m: int)
    ensures (a - b) * m == a * m - b * m
  {}

  lemma Fifth(d: nat, columns: nat, k: int)
    requires d % 5 == 0 && d * columns == 5 * k
    ensures d / 5 * columns == k
  {
    var t := d / 5;
    assert (5 * t) * columns == 5 * (t * columns);
  }

  lemma AtLeast(t: nat, columns: nat)
    ensures if t > 0 then t * columns >= columns else t * columns == 0
  {}

  /** 5 is prime: it divides d if it divides d * columns but not columns. */
  lemma FiveDivides(d: nat, columns: nat, k: int)
    requires columns % 5 != 0 && d * columns == 5 * k
    ensures d % 5 == 0
  {
    var q, r, e, f := columns / 5, columns % 5, d / 5, d % 5;
    Expand(e, f, q, r);
    assert f * r == 5 * (k - (e * (5 * q + r) + f * q));
    Residues(f, r);
  }

  lemma Expand(e: nat, f: nat, q: nat, r: nat)
    ensures (5 * e + f) * (5 * q + r) == 5 * (e * (5 * q + r) + f * q) + f * r
  {
    Distribute(5 * e + f, f, 5 * q + r);
    assert (5 * e) * (5 * q + r) == 5 * (e * (5 * q + r));
    assert f * (5 * q + r) == f * (5 * q) + f * r == 5 * (f * q) + f * r;
  }

  lemma Residues(f: nat, r: nat)
    requires f < 5 && 0 < r < 5 && (f * r) % 5 == 0
    ensures f == 0
  {
    assert r == 1 || r == 2 || r == 3 || r == 4;
  }
}
