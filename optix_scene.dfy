/**
 * `OptixScene` bookkeeping: the id -> geometry map, its inverse
 * geometry -> id map, the id generator the ids are drawn from, and the weak
 * back-references to the instances that wrap the scene.
 */
module OptixScenes {
  import opened Common
  import opened OptixGeometries

  /** `OptixSceneType`. */
  datatype OptixSceneType = NONE | INSTANCES | GEOMETRIES

  /** `OptixGeometryType`. */
  datatype OptixGeometryType = MESH | INSTANCE

  /** `IDGen`: hands out ids that have not been handed out before. */
  class IdGen {
    var next: nat

    constructor ()
      ensures next == 0
    {
      next := 0;
    }

    /** `get()`: a new id; every id handed out so far is below `next`. */
    method Get() returns (id: nat)
      modifies this
      ensures id == old(next) && next == old(next) + 1
    {
      id := next;
      next := next + 1;
    }
  }

  class OptixScene {
    /** Identity of the scene, the target of its geometries' weak references. */
    const self: ObjId
    const gen: IdGen
    /** `m_geometries` (an id-ordered `std::map`) and its inverse `m_ids`. */
    var geometries: map<nat, OptixGeometry>
    var ids: map<OptixGeometry, nat>
    /** `m_parents`: weak references to the instances wrapping this scene. */
    var parents: set<ObjId>
    var sceneType: OptixSceneType
    var geomType: OptixGeometryType

    /**
     * The two maps describe the same pairing, and every id in use was drawn
     * from the generator.
     */
    ghost predicate Valid()
      reads this, gen
    {
      && (forall id :: id in geometries ==> geometries[id] in ids && ids[geometries[id]] == id)
      && (forall g :: g in ids ==> ids[g] in geometries && geometries[ids[g]] == g)
      && (forall id :: id in geometries ==> id < gen.next)
    }

    constructor (self: ObjId)
      ensures Valid() && fresh(gen)
      ensures this.self == self
      ensures geometries == map[] && ids == map[] && parents == {}
      ensures sceneType == NONE && geomType == MESH
    {
      this.self := self;
      gen := new IdGen();
      geometries := map[];
      ids := map[];
      parents := {};
      sceneType := NONE;
      geomType := MESH;
    }

    /**
     * `add(geom)`: registers the geometry under a freshly generated id and
     * records this scene as one of its parents. A geometry already in the
     * scene keeps its id.
     */
    method Add(geom: OptixGeometry) returns (id: nat)
      requires Valid()
      modifies this, gen, geom
      ensures Valid()
      ensures id in geometries && geometries[id] == geom
      ensures geom in ids && ids[geom] == id
      ensures old(geom in ids) ==> id == old(ids[geom]) && geometries == old(geometries) && ids == old(ids)
      ensures !old(geom in ids) ==>
                && id !in old(geometries)
                && geometries == old(geometries)[id := geom]
                && ids == old(ids)[geom := id]
      ensures geom.parents == old(geom.parents) + {self}
      ensures parents == old(parents) && sceneType == old(sceneType) && geomType == old(geomType)
    {
      if geom in ids {
        id := ids[geom];
      } else {
        id := gen.Get();
        geometries := geometries[id := geom];
        ids := ids[geom := id];
      }
      geom.AddParent(self);
    }

    /** `get(geom)`: the id under which the geometry is stored, if any. */
    method Get(geom: OptixGeometry) returns (r: Option<nat>)
      requires Valid()
      ensures r.Some? <==> geom in ids
      ensures r.Some? ==> r.value in geometries && geometries[r.value] == geom
    {
      if geom in ids {
        r := Some(ids[geom]);
      } else {
        r := None;
      }
    }

    /** `geometries()`: a copy of the id -> geometry map. */
    method Geometries() returns (r: map<nat, OptixGeometry>)
      requires Valid()
      ensures r.Keys == geometries.Keys
      ensures forall id :: id in r ==> r[id] in ids && ids[r[id]] == id
    {
      r := geometries;
    }

    /** `ids()`: a copy of the geometry -> id map, inverse to `geometries()`. */
    method Ids() returns (r: map<OptixGeometry, nat>)
      requires Valid()
      ensures r.Keys == ids.Keys
      ensures forall g :: g in r ==> r[g] in geometries && geometries[r[g]] == g
    {
      r := ids;
    }

    /** `type()` */
    function Type(): OptixSceneType
      reads this
    {
      sceneType
    }

    /** `geom_type()` */
    function GeomType(): OptixGeometryType
      reads this
    {
      geomType
    }

    /** `cleanupParents()`: drops the expired instance references. */
    method CleanupParents(live: set<ObjId>)
      requires Valid()
      modifies this
      ensures Valid()
      ensures parents == LiveOnly(old(parents), live)
      ensures geometries == old(geometries) && ids == old(ids)
    {
      parents := LiveOnly(parents, live);
    }

    /** `parents()`: the instances that are still alive. */
    function Parents(live: set<ObjId>): (r: set<ObjId>)
      reads this
      ensures forall p :: p in r <==> p in parents && p in live
    {
      LiveOnly(parents, live)
    }

    /** `addParent(parent)` */
    method AddParent(parent: ObjId)
      requires Valid()
      modifies this
      ensures Valid()
      ensures parents == old(parents) + {parent}
      ensures geometries == old(geometries) && ids == old(ids)
    {
      parents := parents + {parent};
    }
  }

  /** No two geometries of a valid scene share an id. */
  lemma IdsDistinct(s: OptixScene, g1: OptixGeometry, g2: OptixGeometry)
    requires s.Valid()
    requires g1 in s.ids && g2 in s.ids && g1 != g2
    ensures s.ids[g1] != s.ids[g2]
  {
  }

  /**
   * Adding two different geometries to a fresh scene gives them different
   * ids, and each id looks up its own geometry.
   */
  method AddTwo(self: ObjId) returns (s: OptixScene, a: OptixGeometry, b: OptixGeometry, idA: nat, idB: nat)
    ensures s.Valid() && a != b
    ensures idA != idB
    ensures s.geometries == map[idA := a, idB := b]
    ensures a.parents == {self} && b.parents == {self}
  {
    s := new OptixScene(self);
    a := new OptixGeometry();
    b := new OptixGeometry();
    idA := s.Add(a);
    idB := s.Add(b);
  }
}
