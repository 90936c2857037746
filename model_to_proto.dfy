/**
 * Translation of audit records and geometries into their protocol-buffer wire form,
 * and a decoder defined by this model that shows the geometry translation loses nothing.
 */
module ModelToProto {
  import opened Common
  import opened Model
  import opened Proto

  /** Thrown for a geometry variant the wire schema has no top-level case for. */
  datatype UnsupportedOperationException = UnsupportedOperationException(geometry: Geometry)

  /** The largest epoch time whose millisecond count times 1000 still fits a `Long`. */
  const MaxExactTime: int := 9_223_372_036_854_775

  /**
   * `Date.toTimestamp`: the seconds field receives the epoch time in MILLISECONDS
   * multiplied by 1000, computed in 64-bit arithmetic; nanos are never set.
   */
  function ToTimestamp(d: Date): (t: Timestamp)
    ensures t.nanos == 0
    ensures (t.seconds - d.time * 1000) % LongModulus == 0
    ensures -MaxExactTime <= d.time <= MaxExactTime ==> t.seconds == d.time * 1000
  {
    Timestamp(WrapLong(d.time * 1000), 0)
  }

  /** Reads back the date that `ToTimestamp` encoded, by undoing the scaling. */
  function FromTimestamp(t: Timestamp): Date
  {
    Date(t.seconds / 1000)
  }

  /** Within the range where the multiplication does not overflow, no date is lost. */
  lemma TimestampRoundTrip(d: Date)
    requires -MaxExactTime <= d.time <= MaxExactTime
    ensures FromTimestamp(ToTimestamp(d)) == d
  {
    assert ToTimestamp(d).seconds == d.time * 1000;
  }

  /** Just past that range the 64-bit product wraps: a positive time becomes negative seconds. */
  lemma TimestampWrapsPastRange()
    ensures ToTimestamp(Date(MaxExactTime + 1)).seconds < 0
  {
    var d := Date(MaxExactTime + 1);
    assert (MaxExactTime + 1) * 1000 - LongMin == LongModulus + 192;
    assert ToTimestamp(d).seconds == 192 + LongMin;
  }

  /**
   * `AuditInfo.toProtoBuf`: the user's id, photo URL and display name and the client
   * time are copied; the server time is set exactly when the audit record has one.
   */
  function EncodeAuditInfo(a: AuditInfo): (p: AuditInfoProto)
    ensures p.userId == a.user.id && p.photoUrl == a.user.photoUrl
    ensures p.displayName == a.user.displayName
    ensures p.clientTimestamp == Some(ToTimestamp(a.clientTimestamp))
    ensures p.serverTimestamp.Some? <==> a.serverTimestamp.Some?
    ensures a.serverTimestamp.Some? ==> p.serverTimestamp == Some(ToTimestamp(a.serverTimestamp.value))
  {
    var withClient :=
      AuditInfoProto(a.user.id, a.user.photoUrl, a.user.displayName, Some(ToTimestamp(a.clientTimestamp)), None);
    if a.serverTimestamp.Some? then
      withClient.(serverTimestamp := Some(ToTimestamp(a.serverTimestamp.value)))
    else
      withClient
  }

  /** What the wire form keeps of an audit record: the user's id, photo URL, name and both times. */
  datatype AuditSummary = AuditSummary(
    userId: string, photoUrl: string, displayName: string, clientTimestamp: Date, serverTimestamp: Option<Date>)

  function Summary(a: AuditInfo): AuditSummary
  {
    AuditSummary(a.user.id, a.user.photoUrl, a.user.displayName, a.clientTimestamp, a.serverTimestamp)
  }

  /** Reads an audit record back from the wire; fails when the client time is missing. */
  function DecodeAuditInfo(p: AuditInfoProto): Option<AuditSummary>
  {
    match p.clientTimestamp
    case None => None
    case Some(client) =>
      var server := if p.serverTimestamp.Some? then Some(FromTimestamp(p.serverTimestamp.value)) else None;
      Some(AuditSummary(p.userId, p.photoUrl, p.displayName, FromTimestamp(client), server))
  }

  /** Every field of an audit record but the user's e-mail survives encoding, for times that do not overflow. */
  lemma AuditInfoRoundTrip(a: AuditInfo)
    requires -MaxExactTime <= a.clientTimestamp.time <= MaxExactTime
    requires a.serverTimestamp.Some? ==> -MaxExactTime <= a.serverTimestamp.value.time <= MaxExactTime
    ensures DecodeAuditInfo(EncodeAuditInfo(a)) == Some(Summary(a))
  {
    TimestampRoundTrip(a.clientTimestamp);
    if a.serverTimestamp.Some? {
      TimestampRoundTrip(a.serverTimestamp.value);
    }
  }

  // ---- Geometry ---------------------------------------------------------------------------

  function EncodeCoordinates(c: Coordinates): (p: CoordinatesProto)
    ensures p.latitude == c.lat && p.longitude == c.lng
  {
    CoordinatesProto(c.lat, c.lng)
  }

  function EncodePoint(pt: Point): (p: PointProto)
    ensures p.coordinates == Some(CoordinatesProto(pt.coordinates.lat, pt.coordinates.lng))
  {
    PointProto(Some(EncodeCoordinates(pt.coordinates)))
  }

  /** A ring keeps the number and the order of its coordinates, each as (latitude, longitude). */
  function EncodeLinearRing(r: LinearRing): (p: LinearRingProto)
    ensures |p.coordinates| == |r.coordinates|
    ensures forall i :: 0 <= i < |r.coordinates| ==>
      p.coordinates[i] == CoordinatesProto(r.coordinates[i].lat, r.coordinates[i].lng)
  {
    LinearRingProto(seq(|r.coordinates|, i requires 0 <= i < |r.coordinates| => EncodeCoordinates(r.coordinates[i])))
  }

  /** A polygon keeps its shell and exactly its holes, in order. */
  function EncodePolygon(pg: Polygon): (p: PolygonProto)
    ensures p.shell == Some(EncodeLinearRing(pg.shell))
    ensures |p.holes| == |pg.holes|
    ensures forall i :: 0 <= i < |pg.holes| ==> p.holes[i] == EncodeLinearRing(pg.holes[i])
  {
    PolygonProto(Some(EncodeLinearRing(pg.shell)), seq(|pg.holes|, i requires 0 <= i < |pg.holes| => EncodeLinearRing(pg.holes[i])))
  }

  /** A multi-polygon becomes one polygon message per polygon, in order. */
  function EncodeMultiPolygon(mp: MultiPolygon): (p: MultiPolygonProto)
    ensures |p.polygons| == |mp.polygons|
    ensures forall i :: 0 <= i < |mp.polygons| ==> p.polygons[i] == EncodePolygon(mp.polygons[i])
  {
    MultiPolygonProto(seq(|mp.polygons|, i requires 0 <= i < |mp.polygons| => EncodePolygon(mp.polygons[i])))
  }

  /** The variants the wire schema can carry at the top level. */
  predicate Supported(g: Geometry)
  {
    g.PointGeometry? || g.PolygonGeometry? || g.MultiPolygonGeometry?
  }

  /**
   * `Geometry.toProtoBuf`: a point, polygon or multi-polygon sets exactly the matching
   * case of the oneof; a line string or linear ring throws.
   */
  function EncodeGeometry(g: Geometry): (r: Result<GeometryProto, UnsupportedOperationException>)
    ensures r.Ok? <==> Supported(g)
    ensures r.Err? ==> r.error == UnsupportedOperationException(g)
    ensures g.PointGeometry? ==>
      r == Ok(GeometryProto(PointCase(PointProto(Some(CoordinatesProto(g.point.coordinates.lat, g.point.coordinates.lng))))))
    ensures g.PolygonGeometry? ==> r == Ok(GeometryProto(PolygonCase(EncodePolygon(g.polygon))))
    ensures g.MultiPolygonGeometry? ==> r == Ok(GeometryProto(MultiPolygonCase(EncodeMultiPolygon(g.multiPolygon))))
  {
    match g
    case PointGeometry(pt) => Ok(GeometryProto(PointCase(EncodePoint(pt))))
    case MultiPolygonGeometry(mp) => Ok(GeometryProto(MultiPolygonCase(EncodeMultiPolygon(mp))))
    case PolygonGeometry(pg) => Ok(GeometryProto(PolygonCase(EncodePolygon(pg))))
    case LineStringGeometry(_) => Err(UnsupportedOperationException(g))
    case LinearRingGeometry(_) => Err(UnsupportedOperationException(g))
  }

  // ---- Decoding, the partner of the encoder ----------------------------------------------

  function DecodeCoordinates(p: CoordinatesProto): Coordinates
  {
    Coordinates(p.latitude, p.longitude)
  }

  function DecodeLinearRing(p: LinearRingProto): LinearRing
  {
    LinearRing(seq(|p.coordinates|, i requires 0 <= i < |p.coordinates| => DecodeCoordinates(p.coordinates[i])))
  }

  function DecodeLinearRings(ps: seq<LinearRingProto>): seq<LinearRing>
  {
    seq(|ps|, i requires 0 <= i < |ps| => DecodeLinearRing(ps[i]))
  }

  /** A polygon message without a shell decodes to nothing. */
  function DecodePolygon(p: PolygonProto): Option<Polygon>
  {
    match p.shell
    case None => None
    case Some(shell) => Some(Polygon(DecodeLinearRing(shell), DecodeLinearRings(p.holes)))
  }

  /** Decodes every polygon, or nothing when any of them fails. */
  function DecodePolygons(ps: seq<PolygonProto>): Option<seq<Polygon>>
  {
    if ps == [] then Some([])
    else
      match (DecodePolygon(ps[0]), DecodePolygons(ps[1..]))
      case (Some(first), Some(rest)) => Some([first] + rest)
      case _ => None
  }

  function DecodeGeometry(p: GeometryProto): Option<Geometry>
  {
    match p.geometryType
    case GeometryTypeNotSet => None
    case PointCase(pt) =>
      if pt.coordinates.Some? then Some(PointGeometry(Point(DecodeCoordinates(pt.coordinates.value)))) else None
    case PolygonCase(pg) =>
      if DecodePolygon(pg).Some? then Some(PolygonGeometry(DecodePolygon(pg).value)) else None
    case MultiPolygonCase(mp) =>
      if DecodePolygons(mp.polygons).Some? then Some(MultiPolygonGeometry(MultiPolygon(DecodePolygons(mp.polygons).value))) else None
  }

  lemma LinearRingRoundTrip(r: LinearRing)
    ensures DecodeLinearRing(EncodeLinearRing(r)) == r
  {
    var back := DecodeLinearRing(EncodeLinearRing(r));
    assert back.coordinates == r.coordinates;
  }

  lemma PolygonRoundTrip(pg: Polygon)
    ensures DecodePolygon(EncodePolygon(pg)) == Some(pg)
  {
    LinearRingRoundTrip(pg.shell);
    var p := EncodePolygon(pg);
    forall i | 0 <= i < |pg.holes|
      ensures DecodeLinearRing(p.holes[i]) == pg.holes[i]
    {
      LinearRingRoundTrip(pg.holes[i]);
    }
    assert DecodeLinearRings(p.holes) == pg.holes;
  }

  lemma {:induction false} PolygonsRoundTrip(pgs: seq<Polygon>)
    ensures DecodePolygons(EncodeMultiPolygon(MultiPolygon(pgs)).polygons) == Some(pgs)
  {
    var ps := EncodeMultiPolygon(MultiPolygon(pgs)).polygons;
    if pgs != [] {
      PolygonRoundTrip(pgs[0]);
      PolygonsRoundTrip(pgs[1..]);
      assert ps[1..] == EncodeMultiPolygon(MultiPolygon(pgs[1..])).polygons;
      assert [pgs[0]] + pgs[1..] == pgs;
    }
  }

  /** Encoding drops no coordinate: every supported geometry is recovered from its wire form. */
  lemma GeometryRoundTrip(g: Geometry)
    requires Supported(g)
    ensures EncodeGeometry(g).Ok? && DecodeGeometry(EncodeGeometry(g).value) == Some(g)
  {
    match g
    case PointGeometry(_) =>
    case PolygonGeometry(pg) => PolygonRoundTrip(pg);
    case MultiPolygonGeometry(mp) => PolygonsRoundTrip(mp.polygons);
  }
}
