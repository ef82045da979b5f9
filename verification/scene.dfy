/**
  Scenes and events with location-privacy controls (internal/scene/model.go).

  A scene or event may carry a precise point only with the owner's consent.
  `EnforceLocationConsent` drops the point when consent is absent, in place,
  and returns the receiver for chaining.
 */
module Scene {
  import opened Wrappers

  /** A latitude/longitude pair; its coordinates play no part here. */
  type Point(==)

  datatype Palette = Palette(primary: string, secondary: string)

  class Scene {
    var id: string
    var name: string
    var description: string
    var allowPrecise: bool
    var precisePoint: Option<Point>
    var coarseGeohash: string
    var tags: seq<string>
    var visibility: string
    var palette: Option<Palette>
    var ownerUserID: Option<string>
    var recordDID: Option<string>
    var recordRKey: Option<string>

    /** No precise point is held without consent. */
    predicate ConsentHolds()
      reads this
    {
      !allowPrecise ==> precisePoint == None
    }

    constructor (id: string, name: string, allowPrecise: bool, precisePoint: Option<Point>, coarseGeohash: string)
      ensures this.id == id && this.name == name && this.coarseGeohash == coarseGeohash
      ensures this.allowPrecise == allowPrecise && this.precisePoint == precisePoint
      ensures description == "" && tags == [] && visibility == ""
      ensures palette == None && ownerUserID == None && recordDID == None && recordRKey == None
    {
      this.id := id;
      this.name := name;
      this.description := "";
      this.allowPrecise := allowPrecise;
      this.precisePoint := precisePoint;
      this.coarseGeohash := coarseGeohash;
      this.tags := [];
      this.visibility := "";
      this.palette := None;
      this.ownerUserID := None;
      this.recordDID := None;
      this.recordRKey := None;
    }

    /**
      Clears the precise point when consent is absent and keeps it otherwise;
      no other field changes, and a scene that already respects consent is left
      exactly as it was, so a second call changes nothing.
     */
    method EnforceLocationConsent() returns (self: Scene)
      modifies this
      ensures self == this
      ensures ConsentHolds()
      ensures allowPrecise ==> precisePoint == old(precisePoint)
      ensures old(ConsentHolds()) ==> precisePoint == old(precisePoint)
      ensures id == old(id) && name == old(name) && description == old(description)
      ensures allowPrecise == old(allowPrecise) && coarseGeohash == old(coarseGeohash)
      ensures tags == old(tags) && visibility == old(visibility) && palette == old(palette)
      ensures ownerUserID == old(ownerUserID) && recordDID == old(recordDID) && recordRKey == old(recordRKey)
    {
      if !allowPrecise {
        precisePoint := None;
      }
      return this;
    }
  }

  class Event {
    var id: string
    var sceneID: string
    var name: string
    var description: string
    var allowPrecise: bool
    var precisePoint: Option<Point>
    var recordDID: Option<string>
    var recordRKey: Option<string>

    /** No precise point is held without consent. */
    predicate ConsentHolds()
      reads this
    {
      !allowPrecise ==> precisePoint == None
    }

    constructor (id: string, sceneID: string, name: string, allowPrecise: bool, precisePoint: Option<Point>)
      ensures this.id == id && this.sceneID == sceneID && this.name == name
      ensures this.allowPrecise == allowPrecise && this.precisePoint == precisePoint
      ensures description == "" && recordDID == None && recordRKey == None
    {
      this.id := id;
      this.sceneID := sceneID;
      this.name := name;
      this.description := "";
      this.allowPrecise := allowPrecise;
      this.precisePoint := precisePoint;
      this.recordDID := None;
      this.recordRKey := None;
    }

    /**
      Clears the precise point when consent is absent and keeps it otherwise;
      no other field changes, and an event that already respects consent is
      left exactly as it was, so a second call changes nothing.
     */
    method EnforceLocationConsent() returns (self: Event)
      modifies this
      ensures self == this
      ensures ConsentHolds()
      ensures allowPrecise ==> precisePoint == old(precisePoint)
      ensures old(ConsentHolds()) ==> precisePoint == old(precisePoint)
      ensures id == old(id) && sceneID == old(sceneID) && name == old(name) && description == old(description)
      ensures allowPrecise == old(allowPrecise)
      ensures recordDID == old(recordDID) && recordRKey == old(recordRKey)
    {
      if !allowPrecise {
        precisePoint := None;
      }
      return this;
    }
  }

  /**
    A scene created without consent but with a point, as a create handler
    receives it, holds no point once consent is enforced, and enforcing it
    again keeps it so.
   */
  method CreateWithoutConsent(p: Point) returns (s: Scene)
    ensures s.precisePoint == None && !s.allowPrecise && s.ConsentHolds()
  {
    s := new Scene("scene-1", "Underground Techno", false, Some(p), "dr5ru7");
    var same := s.EnforceLocationConsent();
    assert same == s && s.precisePoint == None;
    same := s.EnforceLocationConsent();
  }
}
