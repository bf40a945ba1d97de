/** The colour table handed to the renderer beside the lattice. One colour is
    drawn per column band and repeated once per row; the table is filled band
    by band (column-major), while the lattice it sits beside is row-major.
    The colour type is abstract and the random draws are the `bands` the caller
    supplies, one per column. */
module ColourAssigner {
  import opened FlatIndexing

  /** `rows` copies of one band's colour: the inner loop of the fill. */
  function Repeat<C>(colour: C, rows: nat): (cs: seq<C>)
    ensures |cs| == rows
  {
    seq(rows, _ => colour)
  }

  /** The table for the given band colours: each band's colour repeated
      `rows` times, bands in order. */
  function ColourTable<C>(bands: seq<C>, rows: int): (cs: seq<C>)
    requires rows >= 1
    ensures |cs| == |bands| * rows
  {
    if |bands| == 0 then []
    else
      MulDistrib(|bands|, |bands| - 1, rows);
      Repeat(bands[0], rows) + ColourTable(bands[1..], rows)
  }

  /** The table is column-major: entry r of band c is at flat index
      Offset(c, rows) + r, that is c * rows + r, and holds band c's colour. */
  lemma {:induction false} ColourTableAt<C>(bands: seq<C>, rows: int, c: int, r: int)
    requires rows >= 1
    requires 0 <= c < |bands| && 0 <= r < rows
    ensures Offset(c, rows) + r < |ColourTable(bands, rows)|
    ensures ColourTable(bands, rows)[Offset(c, rows) + r] == bands[c]
  {
    if c > 0 {
      ColourTableAt(bands[1..], rows, c - 1, r);
    }
  }

  /** Equivalently, flat index i holds the colour of band i / rows. */
  lemma {:induction false} ColourTableByIndex<C>(bands: seq<C>, rows: int)
    requires rows >= 1
    ensures forall i | 0 <= i < |bands| * rows ::
              0 <= i / rows < |bands| && ColourTable(bands, rows)[i] == bands[i / rows]
  {
    OffsetIsProduct(|bands|, rows);
    forall i | 0 <= i < |bands| * rows
      ensures 0 <= i / rows < |bands| && ColourTable(bands, rows)[i] == bands[i / rows]
    {
      FlatIndexInRange(i, |bands|, rows);
      ColourTableAt(bands, rows, i / rows, i % rows);
    }
  }

  /** All `rows` entries of a band share one colour. */
  lemma {:induction false} BandUniform<C>(bands: seq<C>, rows: int, c: int, r1: int, r2: int)
    requires rows >= 1
    requires 0 <= c < |bands| && 0 <= r1 < rows && 0 <= r2 < rows
    ensures Offset(c, rows) + r1 < |ColourTable(bands, rows)|
    ensures Offset(c, rows) + r2 < |ColourTable(bands, rows)|
    ensures ColourTable(bands, rows)[Offset(c, rows) + r1] == ColourTable(bands, rows)[Offset(c, rows) + r2]
  {
    ColourTableAt(bands, rows, c, r1);
    ColourTableAt(bands, rows, c, r2);
  }

  /** The nine colours the editor starts with: three blue, three green,
      three red. */
  function InitialColours<C>(blue: C, green: C, red: C): seq<C> {
    [blue, blue, blue, green, green, green, red, red, red]
  }

  /** The initial colours are the table for bands blue, green, red with three rows. */
  lemma InitialIsThreeBandTable<C>(blue: C, green: C, red: C)
    ensures ColourTable([blue, green, red], 3) == InitialColours(blue, green, red)
  {
    var t := ColourTable([blue, green, red], 3);
    ColourTableByIndex([blue, green, red], 3);
    assert t[0] == blue && t[1] == blue && t[2] == blue;
    assert t[3] == green && t[4] == green && t[5] == green;
    assert t[6] == red && t[7] == red && t[8] == red;
  }
}
