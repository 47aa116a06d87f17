/**
 * `OptixGeometry`: the back-references from a geometry to the scenes that
 * contain it. `m_parents` is a set of weak pointers to scenes; here it is a
 * set of scene identities, and a scene is alive when its identity is in the
 * `live` set the caller passes.
 */
module OptixGeometries {
  import opened Common

  class OptixGeometry {
    /** `m_parents`: weak references to the scenes holding this geometry. */
    var parents: set<ObjId>

    constructor ()
      ensures parents == {}
    {
      parents := {};
    }

    /** `cleanupParents()`: erases every expired entry while iterating. */
    method CleanupParents(live: set<ObjId>)
      modifies this
      ensures parents == LiveOnly(old(parents), live)
    {
      var pending := parents;
      while pending != {}
        invariant pending <= old(parents)
        invariant parents == LiveOnly(old(parents) - pending, live) + pending
        decreases pending
      {
        var it :| it in pending;
        if it !in live {
          parents := parents - {it};
        }
        pending := pending - {it};
      }
    }

    /** `removeParent(parent)`: erases the entry if present; true iff it was present. */
    method RemoveParent(parent: ObjId) returns (removed: bool)
      modifies this
      ensures removed <==> parent in old(parents)
      ensures parents == old(parents) - {parent}
    {
      if parent in parents {
        parents := parents - {parent};
        removed := true;
      } else {
        removed := false;
      }
    }

    /** `hasParent(parent)`: whether the weak set holds an entry for `parent`. */
    method HasParent(parent: ObjId) returns (found: bool)
      ensures found <==> parent in parents
    {
      found := parent in parents;
    }

    /**
     * `parents()`: locks every weak entry and collects the scenes that are
     * still alive; the weak set itself is left as it is.
     */
    method Parents(live: set<ObjId>) returns (ret: set<ObjId>)
      ensures ret <= parents && ret <= live
      ensures forall p :: p in parents && p in live ==> p in ret
    {
      ret := {};
      var pending := parents;
      while pending != {}
        invariant pending <= parents
        invariant ret == LiveOnly(parents - pending, live)
        decreases pending
      {
        var elem :| elem in pending;
        var tmp := Lock(Some(elem), live);
        if tmp.Some? {
          ret := ret + {tmp.value};
        }
        pending := pending - {elem};
      }
    }

    /** `addParent(parent)`: inserts; inserting a present entry changes nothing. */
    method AddParent(parent: ObjId)
      modifies this
      ensures parents == old(parents) + {parent}
      ensures parent in old(parents) ==> parents == old(parents)
    {
      parents := parents + {parent};
    }
  }
}
