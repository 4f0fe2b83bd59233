/** The embedding scatter plot: every point is one cell, and the first
    twenty points are drawn red, the rest indigo. */
module EmbeddingSpace {

  /** One entry of the `/embeddings` response. */
  datatype EmbeddingPoint = EmbeddingPoint(token: string, x: real, y: real, id: nat)

  /** Points before this index are highlighted. */
  const HighlightCount: nat := 20

  datatype CellStyle = CellStyle(fill: string, stroke: string)

  const HighlightStyle := CellStyle("#ef4444", "#dc2626")
  const PlainStyle := CellStyle("#4f46e5", "#4338ca")

  /** `index < 20 ? red : indigo` for fill and stroke alike. */
  function StyleAt(index: nat): (s: CellStyle)
    ensures index < HighlightCount ==> s == HighlightStyle
    ensures index >= HighlightCount ==> s == PlainStyle
  {
    if index < HighlightCount then HighlightStyle else PlainStyle
  }

  /** `data.map((entry, index) => <Cell .../>)`. */
  function Cells(data: seq<EmbeddingPoint>): (cells: seq<CellStyle>)
    ensures |cells| == |data|
    ensures forall k :: 0 <= k < |data| ==> cells[k] == StyleAt(k)
  {
    seq(|data|, k requires 0 <= k < |data| => StyleAt(k))
  }

  /** The style of a point depends only on its position: two payloads of
      the same length get the same cells whatever their coordinates or tokens. */
  lemma CellsIgnoreCoordinates(a: seq<EmbeddingPoint>, b: seq<EmbeddingPoint>)
    requires |a| == |b|
    ensures Cells(a) == Cells(b)
  {
  }

  /** Exactly min(20, n) cells are highlighted, and they come first. */
  lemma HighlightedPrefix(data: seq<EmbeddingPoint>, k: nat)
    requires k < |data|
    ensures Cells(data)[k] == HighlightStyle <==> k < HighlightCount
  {
  }
}
