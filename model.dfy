/**
 * The application's value types that the wire encoder reads: time, users, audit
 * records and the tree-shaped geometry of a location of interest.
 */
module Model {
  import opened Common

  /** `java.util.Date`: a point in time held as milliseconds since the epoch (`getTime()`). */
  datatype Date = Date(time: Long)

  /** The signed-in user; only the fields an audit record copies matter here. */
  datatype User = User(id: string, email: string, displayName: string, photoUrl: string)

  /** Who made a change and when; `serverTimestamp` is absent until the remote store acknowledges it. */
  datatype AuditInfo = AuditInfo(user: User, clientTimestamp: Date, serverTimestamp: Option<Date>)

  /**
   * A latitude or a longitude. The encoder only copies these values, so no arithmetic
   * on them is used anywhere in the model.
   */
  type Degrees = real

  datatype Coordinates = Coordinates(lat: Degrees, lng: Degrees)

  datatype Point = Point(coordinates: Coordinates)

  datatype LineString = LineString(coordinates: seq<Coordinates>)

  datatype LinearRing = LinearRing(coordinates: seq<Coordinates>)

  /** One outer boundary and any number of holes, in order. */
  datatype Polygon = Polygon(shell: LinearRing, holes: seq<LinearRing>)

  datatype MultiPolygon = MultiPolygon(polygons: seq<Polygon>)

  /** The sealed `Geometry` hierarchy as a closed union. */
  datatype Geometry =
    | PointGeometry(point: Point)
    | LineStringGeometry(lineString: LineString)
    | LinearRingGeometry(linearRing: LinearRing)
    | PolygonGeometry(polygon: Polygon)
    | MultiPolygonGeometry(multiPolygon: MultiPolygon)
}

/**
 * The protocol-buffer messages of the remote wire schema. A singular message field
 * has presence (`None` when it was never set); a `oneof` is a union with a
 * "not set" case; repeated fields are sequences.
 */
module Proto {
  import opened Common

  /** `google.protobuf.Timestamp`. */
  datatype Timestamp = Timestamp(seconds: Long, nanos: int)

  datatype AuditInfoProto = AuditInfoProto(
    userId: string,
    photoUrl: string,
    displayName: string,
    clientTimestamp: Option<Timestamp>,
    serverTimestamp: Option<Timestamp>)

  datatype CoordinatesProto = CoordinatesProto(latitude: real, longitude: real)

  datatype PointProto = PointProto(coordinates: Option<CoordinatesProto>)

  datatype LinearRingProto = LinearRingProto(coordinates: seq<CoordinatesProto>)

  datatype PolygonProto = PolygonProto(shell: Option<LinearRingProto>, holes: seq<LinearRingProto>)

  datatype MultiPolygonProto = MultiPolygonProto(polygons: seq<PolygonProto>)

  /** The `geometry_type` oneof of the Geometry message. */
  datatype GeometryType =
    | GeometryTypeNotSet
    | PointCase(point: PointProto)
    | PolygonCase(polygon: PolygonProto)
    | MultiPolygonCase(multiPolygon: MultiPolygonProto)

  datatype GeometryProto = GeometryProto(geometryType: GeometryType)
}
