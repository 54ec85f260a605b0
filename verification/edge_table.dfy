/** The road table of the dashboard (frontend/src/components/EdgeTable.jsx):
    it lists only the edges that carry traffic in the current step. */
module EdgeTable {
  import opened Text
  import opened Seqs
  import opened Traffic

  predicate IsActive(e: EdgeRecord) {
    e.vehicleCount > 0
  }

  /** `activeEdges`: the edges with at least one vehicle, in the step's order. */
  function ActiveEdges(edges: seq<EdgeRecord>): (r: seq<EdgeRecord>)
    ensures Subsequence(r, edges)
    ensures forall i :: 0 <= i < |r| ==> r[i].vehicleCount > 0
    ensures forall e :: e in edges && e.vehicleCount > 0 ==> e in r
    ensures forall e :: e in r ==> e in edges
  {
    FilterIsSubsequence(edges, IsActive);
    Filter(edges, IsActive)
  }

  /** Filtering the active edges again changes nothing. */
  lemma ActiveEdgesIdempotent(edges: seq<EdgeRecord>)
    ensures ActiveEdges(ActiveEdges(edges)) == ActiveEdges(edges)
  {
    FilterIdempotent(edges, IsActive);
  }

  /** What the component renders: the empty-state message, or a table whose
      header counts its rows. */
  datatype View = NoTraffic | Table(header: string, rows: seq<EdgeRecord>)

  const NoTrafficMessage: string := "No traffic on any edge at this step"

  function Header(n: nat): string {
    "Road Traffic (" + NatToString(n) + " active roads)"
  }

  /** `EdgeTable({ edges })`. */
  function Render(edges: seq<EdgeRecord>): (v: View)
    ensures v.NoTraffic? <==> forall i :: 0 <= i < |edges| ==> edges[i].vehicleCount == 0
    ensures v.Table? ==> |v.rows| > 0 && v.rows == ActiveEdges(edges)
  {
    FilterEmpty(edges, IsActive);
    var active := ActiveEdges(edges);
    if |active| == 0 then NoTraffic else Table(Header(|active|), active)
  }

  /** The number printed in the header is the number of rows: reading the
      digits between the parenthesis and the following space gives it back. */
  lemma HeaderCountsRows(edges: seq<EdgeRecord>)
    ensures Render(edges).Table? ==>
      var v := Render(edges);
      var digits := v.header[14..|v.header| - 14];
      && (forall i :: 0 <= i < |digits| ==> IsDigit(digits[i]))
      && DigitsValue(digits) == |v.rows|
  {
    var v := Render(edges);
    if v.Table? {
      var n := |v.rows|;
      var h := Header(n);
      assert h[14..|h| - 14] == NatToString(n);
      DigitsValueOfNatToString(n);
    }
  }
}
