/** The cells of the CSV reports the dataset tools write, before any quoting or formatting. */
module Csv {

  /**
   * A CSV cell: text, an integer, a number, a number written with a trailing '%',
   * or a number written with two decimals.
   */
  datatype Cell = Str(text: string) | Int(value: int) | Num(number: real) | Pct(percent: real) | Fixed2(fixed: real)

  function Blanks(k: nat): (cs: seq<Cell>)
    ensures |cs| == k
  {
    seq(k, i => Str(""))
  }

  /** A row of a report whose rows all have the given width, padded with empty cells. */
  function Padded(cells: seq<Cell>, width: nat): (r: seq<Cell>)
    requires |cells| <= width
    ensures |r| == width && r[..|cells|] == cells
    ensures forall i :: |cells| <= i < width ==> r[i] == Str("")
  {
    cells + Blanks(width - |cells|)
  }
}
