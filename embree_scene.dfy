/**
 * `EmbreeScene` bookkeeping: build settings, the id -> geometry map with its
 * kind-filtered count and lookup, add/get/has/remove, and the weak references
 * to the instances that wrap the scene.
 *
 * Geometry kinds are a closed enumeration standing for the C++ class
 * hierarchy: a `dynamic_pointer_cast<T>` succeeds exactly when the stored
 * geometry's kind is T's kind.
 */
module EmbreeScenes {
  import opened Common

  /** `RTCBuildQuality` */
  datatype BuildQuality = LOW | MEDIUM | HIGH | REFIT

  /** One bit of `RTCSceneFlags`; the flags value is the set of bits raised. */
  datatype SceneFlag = DYNAMIC | COMPACT | ROBUST | CONTEXT_FILTER_FUNCTION

  /** `RTC_SCENE_FLAG_NONE` */
  const SCENE_FLAG_NONE: set<SceneFlag> := {}

  /** `EmbreeSceneSettings` */
  datatype EmbreeSceneSettings = EmbreeSceneSettings(quality: BuildQuality, flags: set<SceneFlag>)

  /** A value-initialised `EmbreeSceneSettings{}`. */
  function DefaultSettings(): (s: EmbreeSceneSettings)
    ensures s.quality == MEDIUM
    ensures s.flags == SCENE_FLAG_NONE
  {
    EmbreeSceneSettings(MEDIUM, {})
  }

  /** `EmbreeGeometryType`: meshes (spheres, cubes, ... are meshes) and instances. */
  datatype GeometryKind = MESH | INSTANCE

  class EmbreeGeometry {
    const kind: GeometryKind
    /** `parent`: weak reference to the scene the geometry was added to. */
    var parent: Option<ObjId>

    constructor (kind: GeometryKind)
      ensures this.kind == kind && parent == None
    {
      this.kind := kind;
      parent := None;
    }
  }

  /** The ids whose geometry is of the given kind. */
  function IdsOfKind(m: map<nat, EmbreeGeometry>, kind: GeometryKind): set<nat>
  {
    set id | id in m && m[id].kind == kind
  }

  /** Specification of `count<T>()`: how many stored geometries are of kind T. */
  function CountOfKind(m: map<nat, EmbreeGeometry>, kind: GeometryKind): nat
  {
    |IdsOfKind(m, kind)|
  }

  /** The count never exceeds the number of stored geometries. */
  lemma CountAtMostSize(m: map<nat, EmbreeGeometry>, kind: GeometryKind)
    ensures CountOfKind(m, kind) <= |m|
  {
    assert IdsOfKind(m, kind) <= m.Keys;
    SubsetCard(IdsOfKind(m, kind), m.Keys);
  }

  lemma SubsetCard<T>(a: set<T>, b: set<T>)
    requires a <= b
    ensures |a| <= |b|
  {
    assert b == a + (b - a);
  }

  /** Removing an id lowers the count of its kind by one and leaves the other kind's count. */
  lemma {:induction false} CountAfterRemove(m: map<nat, EmbreeGeometry>, id: nat, kind: GeometryKind)
    requires id in m
    ensures m[id].kind == kind ==> CountOfKind(m - {id}, kind) == CountOfKind(m, kind) - 1
    ensures m[id].kind != kind ==> CountOfKind(m - {id}, kind) == CountOfKind(m, kind)
  {
    if m[id].kind == kind {
      assert IdsOfKind(m, kind) == IdsOfKind(m - {id}, kind) + {id};
    } else {
      assert IdsOfKind(m, kind) == IdsOfKind(m - {id}, kind);
    }
  }

  /** Adding a geometry under a new id raises the count of its kind by one. */
  lemma {:induction false} CountAfterAdd(m: map<nat, EmbreeGeometry>, id: nat, g: EmbreeGeometry, kind: GeometryKind)
    requires id !in m
    ensures g.kind == kind ==> CountOfKind(m[id := g], kind) == CountOfKind(m, kind) + 1
    ensures g.kind != kind ==> CountOfKind(m[id := g], kind) == CountOfKind(m, kind)
  {
    if g.kind == kind {
      assert IdsOfKind(m[id := g], kind) == IdsOfKind(m, kind) + {id};
    } else {
      assert IdsOfKind(m[id := g], kind) == IdsOfKind(m, kind);
    }
  }

  /** The ids 0 .. n-1. */
  function Below(n: nat): (r: set<nat>)
    ensures |r| == n
    ensures forall k: nat :: k in r <==> k < n
  {
    if n == 0 then {} else Below(n - 1) + {n - 1}
  }

  /** Some id in 0 .. |used| is unused: the set cannot hold |used| + 1 ids. */
  lemma {:induction false} FreeIdExists(used: set<nat>)
    ensures exists k :: 0 <= k <= |used| && k !in used
  {
    if forall k :: 0 <= k <= |used| ==> k in used {
      assert Below(|used| + 1) <= used;
      SubsetCard(Below(|used| + 1), used);
      assert false;
    }
  }

  /** The smallest id from `from` on that is not in use. */
  function LeastFreeFrom(used: set<nat>, from: nat): (r: nat)
    requires exists k :: from <= k <= |used| && k !in used
    ensures from <= r <= |used| && r !in used
    ensures forall k :: from <= k < r ==> k in used
    decreases |used| - from
  {
    if from !in used then from else LeastFreeFrom(used, from + 1)
  }

  /**
   * The id `rtcAttachGeometry` hands out: Embree's id pool gives back the
   * smallest id that no attached geometry holds.
   */
  function LeastFreeId(used: set<nat>): (r: nat)
    ensures r !in used
    ensures forall k :: 0 <= k < r ==> k in used
  {
    FreeIdExists(used);
    LeastFreeFrom(used, 0)
  }

  class EmbreeScene {
    /** Identity of the scene, the target of its geometries' weak `parent`. */
    const self: ObjId
    var settings: EmbreeSceneSettings
    /** `m_geometries` */
    var geometries: map<nat, EmbreeGeometry>
    /** `parents`: weak references to instances; the scene keeps none alive. */
    var parents: set<ObjId>

    constructor (self: ObjId, settings: EmbreeSceneSettings)
      ensures this.self == self && this.settings == settings
      ensures geometries == map[] && parents == {}
    {
      this.self := self;
      this.settings := settings;
      geometries := map[];
      parents := {};
    }

    /** `setQuality(quality)` */
    method SetQuality(quality: BuildQuality)
      modifies this
      ensures settings == old(settings).(quality := quality)
      ensures geometries == old(geometries) && parents == old(parents)
    {
      settings := settings.(quality := quality);
    }

    /** `setFlags(flags)` */
    method SetFlags(flags: set<SceneFlag>)
      modifies this
      ensures settings == old(settings).(flags := flags)
      ensures geometries == old(geometries) && parents == old(parents)
    {
      settings := settings.(flags := flags);
    }

    /** `add(geom)`: attaches under the smallest free id and becomes the geometry's parent. */
    method Add(geom: EmbreeGeometry) returns (id: nat)
      modifies this, geom
      ensures id !in old(geometries)
      ensures forall k :: 0 <= k < id ==> k in old(geometries)
      ensures geometries == old(geometries)[id := geom]
      ensures geom.parent == Some(self)
      ensures settings == old(settings) && parents == old(parents)
    {
      id := LeastFreeId(geometries.Keys);
      geom.parent := Some(self);
      geometries := geometries[id := geom];
    }

    /** `get(geom_id)`: the stored geometry, or null for an unknown id. */
    function Get(id: nat): (r: Option<EmbreeGeometry>)
      reads this
      ensures r.Some? <==> id in geometries
      ensures r.Some? ==> r.value == geometries[id]
    {
      if id in geometries then Some(geometries[id]) else None
    }

    /** `geometries()`: a copy of the id -> geometry map, agreeing with `get` on every id. */
    method Geometries() returns (r: map<nat, EmbreeGeometry>)
      ensures forall id :: id in r <==> Get(id).Some?
      ensures forall id :: id in r ==> Get(id) == Some(r[id])
    {
      r := geometries;
    }

    /** `has(geom_id)` */
    function Has(id: nat): (r: bool)
      reads this
      ensures r <==> Get(id).Some?
    {
      id in geometries
    }

    /** `remove(geom_id)`: detaches and returns the geometry and clears its parent; null if absent. */
    method Remove(id: nat) returns (r: Option<EmbreeGeometry>)
      modifies this, geometries.Values
      ensures r == old(Get(id))
      ensures geometries == old(geometries) - {id}
      ensures r.Some? ==> r.value.parent == None
      ensures forall g :: g in old(geometries.Values) && Some(g) != r ==> g.parent == old(g.parent)
      ensures settings == old(settings) && parents == old(parents)
    {
      if id in geometries {
        var geom := geometries[id];
        geom.parent := None;
        geometries := geometries - {id};
        r := Some(geom);
      } else {
        r := None;
      }
    }

    /** `get_as<T>(geom_id)`: the stored geometry if it is a T, otherwise null. */
    function GetAs(id: nat, kind: GeometryKind): (r: Option<EmbreeGeometry>)
      reads this
      ensures r.Some? <==> id in geometries && geometries[id].kind == kind
      ensures r.Some? ==> r.value == geometries[id]
    {
      var geom := Get(id);
      if geom.Some? && geom.value.kind == kind then geom else None
    }

    /** `count<T>()`: walks the map and counts the geometries that are a T. */
    method Count(kind: GeometryKind) returns (ret: nat)
      ensures ret == CountOfKind(geometries, kind)
    {
      ret := 0;
      var pending := geometries.Keys;
      while pending != {}
        invariant pending <= geometries.Keys
        invariant ret == |IdsOfKind(geometries, kind) - pending|
        decreases pending
      {
        var it :| it in pending;
        if geometries[it].kind == kind {
          assert IdsOfKind(geometries, kind) - (pending - {it})
              == (IdsOfKind(geometries, kind) - pending) + {it};
          ret := ret + 1;
        } else {
          assert IdsOfKind(geometries, kind) - (pending - {it})
              == IdsOfKind(geometries, kind) - pending;
        }
        pending := pending - {it};
      }
    }
  }

  /**
   * Adding a mesh and removing it again leaves no mesh in the scene, and the
   * removed geometry no longer points at the scene.
   */
  method AddThenRemove(self: ObjId) returns (meshes: nat, parent: Option<ObjId>)
    ensures meshes == 0
    ensures parent == None
  {
    var scene := new EmbreeScene(self, DefaultSettings());
    var sphere := new EmbreeGeometry(MESH);
    var id := scene.Add(sphere);
    var removed := scene.Remove(id);
    meshes := scene.Count(MESH);
    assert scene.geometries == map[];
    assert IdsOfKind(scene.geometries, MESH) == {};
    parent := removed.value.parent;
  }

  /**
   * A geometry fetched from the scene's map survives the scene; once the
   * scene is gone its weak `parent` no longer locks.
   */
  method OutliveScene(self: ObjId, live: set<ObjId>) returns (sphere: EmbreeGeometry, locked: Option<ObjId>)
    ensures sphere.kind == MESH && sphere.parent == Some(self)
    ensures locked == None
  {
    var scene := new EmbreeScene(self, DefaultSettings());
    var added := new EmbreeGeometry(MESH);
    var id := scene.Add(added);
    var all := scene.Geometries();
    sphere := all[id];
    // the last owner of the scene releases it: its identity is no longer live
    var liveAfter := live - {self};
    locked := Lock(sphere.parent, liveAfter);
  }
}
