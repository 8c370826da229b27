/** The results a handle keeps: the active one, the saved ones, and which handle is active.

    `live` holds the result objects that exist. Deleting one takes it out, and a result may only be deleted or used
    while it is there; so the precondition of `Delete`, proved at every call, says that no result is freed twice, and
    `GetActiveResult` that none is used after it is freed. `Valid` is all that any operation asks of the state, so
    that it holds after every sequence of them, on any number of handles. */
module HandleCache {
  import opened IdSearch

  /** A stored result. */
  class CMySQLResult {
    constructor () { }
  }

  /** What handles share: the handles that are open, the active one, and the results that exist. */
  class Plugin {
    var handles: set<CMySQLHandle>
    var activeHandle: CMySQLHandle?
    ghost var live: set<CMySQLResult>

    ghost predicate Valid()
      reads this, handles
    {
      && (forall h :: h in handles ==> h.Consistent() && h.Owned() <= live)
      && (forall h, k :: h in handles && k in handles && h != k ==> h.Owned() !! k.Owned())
      && (activeHandle != null ==> activeHandle in handles && activeHandle.activeResult != null)
    }

    /** A result that belongs to no handle, such as that of a query that is being processed. */
    ghost predicate Loose(r: CMySQLResult)
      reads this, handles
    {
      r in live && forall h :: h in handles ==> r !in h.Owned()
    }

    constructor ()
      ensures Valid() && handles == {} && live == {}
    {
      handles, activeHandle, live := {}, null, {};
    }

    /** `Create`, once the handle's id is found. */
    method Create() returns (h: CMySQLHandle)
      requires Valid()
      modifies this`handles
      ensures Valid() && fresh(h) && handles == old(handles) + {h}
    {
      h := new CMySQLHandle();
      handles := handles + {h};
    }

    /** A query's result, while the query is being processed. */
    method NewResult() returns (r: CMySQLResult)
      requires Valid()
      modifies this`live
      ensures Valid() && fresh(r) && Loose(r) && live == old(live) + {r}
    {
      r := new CMySQLResult();
      live := live + {r};
    }

    /** What the cache natives read: the active handle's active result. */
    method GetActiveResult() returns (r: CMySQLResult?)
      requires Valid()
      ensures activeHandle == null <==> r == null
      ensures r != null ==> r in live && r == activeHandle.activeResult
    {
      r := null;
      if activeHandle != null {
        assert activeHandle.Owned() <= live;
        r := activeHandle.activeResult;
      }
    }

    /** `delete` of a result. */
    method Delete(r: CMySQLResult)
      requires r in live
      modifies this`live
      ensures live == old(live) - {r}
    {
      live := live - {r};
    }

    /** `delete` of every entry. */
    method DeleteAll(m: map<nat, CMySQLResult>)
      requires m.Values <= live && forall i, j :: i in m && j in m && i != j ==> m[i] != m[j]
      modifies this`live
      ensures live == old(live) - m.Values
    {
      var rest := m;
      while rest != map[]
        invariant rest.Keys <= m.Keys && forall id :: id in rest ==> rest[id] == m[id]
        invariant rest.Values <= live && live == old(live) - (m.Values - rest.Values)
        decreases |rest|
      {
        var id :| id in rest;
        Delete(rest[id]);
        ValuesRemove(rest, id);
        rest := rest - {id};
      }
    }
  }

  class CMySQLHandle {
    var activeResult: CMySQLResult?
    var activeId: nat
    var saved: map<nat, CMySQLResult>

    /** The results this handle is responsible for. */
    ghost function Owned(): set<CMySQLResult>
      reads this
    {
      saved.Values + (if activeResult == null then {} else {activeResult})
    }

    /** A non-zero active id names the saved result that is active; an active result that is not saved is in no entry;
        no two entries share a result; and ids are unsigned 32-bit numbers other than 0. */
    ghost predicate Consistent()
      reads this
    {
      && (activeId != 0 ==> activeId in saved && saved[activeId] == activeResult)
      && (activeId == 0 ==> activeResult !in saved.Values)
      && (forall id, id' :: id in saved && id' in saved && id != id' ==> saved[id] != saved[id'])
      && (forall id :: id in saved ==> 0 < id < WORD)
    }

    constructor ()
      ensures activeResult == null && activeId == 0 && saved == map[]
    {
      activeResult, activeId, saved := null, 0, map[];
    }

    method IsActiveResultSaved() returns (b: bool)
      ensures b == (activeId != 0)
    {
      b := activeId > 0;
    }

    /** A result that is not saved yet gets an id that is not in use, and not 0 either unless the greatest id is taken;
        with the id 0 it would not count as saved, and the handle would not be consistent. `order` is the order in which
        the map of saved results happens to be walked. */
    method SaveActiveResult(p: Plugin, order: seq<nat>) returns (id: nat)
      requires p.Valid() && this in p.handles && Enumerates(order, saved.Keys) && Vacant(saved.Keys)
      modifies this
      ensures WORD - 1 !in old(saved) || old(activeResult) == null || old(activeId) != 0 ==> p.Valid()
      ensures activeResult == old(activeResult) && Owned() == old(Owned())
      ensures old(activeResult) == null ==> id == 0 && unchanged(this)
      ensures old(activeResult) != null && old(activeId) != 0 ==> id == old(activeId) && unchanged(this)
      ensures old(activeResult) != null && old(activeId) == 0 ==>
                id !in old(saved) && activeId == id && saved == old(saved)[id := activeResult]
                && (WORD - 1 !in old(saved) ==> id != 0)
    {
      if activeResult == null {
        return 0;
      }
      if activeId != 0 {
        return activeId;
      }
      id := NextId(saved.Keys, order);
      ValuesAdd(saved, id, activeResult);
      activeId := id;
      saved := saved[id := activeResult];
      assert WORD - 1 !in old(saved) ==> Consistent();
      assert Owned() == old(Owned());
    }

    method DeleteSavedResult(p: Plugin, resultid: nat) returns (ok: bool)
      requires p.Valid() && this in p.handles
      modifies this, p`activeHandle, p`live
      ensures p.Valid() && ok == (resultid != 0 && resultid in old(saved))
      ensures !ok ==> unchanged(this) && p.live == old(p.live) && p.activeHandle == old(p.activeHandle)
      ensures ok ==> saved == old(saved) - {resultid} && p.live == old(p.live) - {old(saved)[resultid]}
      ensures ok && old(activeResult) == old(saved)[resultid] ==> activeResult == null && p.activeHandle == null
      ensures ok && old(activeResult) != old(saved)[resultid] ==>
                activeResult == old(activeResult) && activeId == old(activeId) && p.activeHandle == old(p.activeHandle)
    {
      if resultid == 0 || resultid !in saved {
        return false;
      }
      var result := saved[resultid];
      if activeResult == result {
        activeResult := null;
        activeId := 0;
        p.activeHandle := null;
      }
      p.Delete(result);
      ValuesRemove(saved, resultid);
      saved := saved - {resultid};
      ok := true;
      assert Consistent();
      assert Owned() == old(Owned()) - {result};
    }

    /** `SetActiveResult` of an id. An unsaved active result is deleted. */
    method SetActiveById(p: Plugin, resultid: nat)
      requires p.Valid() && this in p.handles
      modifies this, p`activeHandle, p`live
      ensures p.Valid() && saved == old(saved)
      ensures resultid == 0 ==> activeResult == null && activeId == 0 && p.activeHandle == null
      ensures resultid != 0 && resultid in saved ==>
                activeResult == saved[resultid] && activeId == resultid && p.activeHandle == this
      ensures resultid != 0 && resultid !in saved ==>
                unchanged(this) && p.live == old(p.live) && p.activeHandle == old(p.activeHandle)
      ensures resultid == 0 || resultid in saved ==>
                p.live == old(p.live) - (if old(activeResult) != null && old(activeId) == 0
                                  then {old(activeResult)} else {})
    {
      if resultid != 0 {
        if resultid in saved {
          var result := saved[resultid];
          if activeResult != null {
            if activeId == 0 {
              p.Delete(activeResult);
            }
          }
          activeResult := result;
          activeId := resultid;
          p.activeHandle := this;
        }
      } else {
        if activeId == 0 && activeResult != null {
          p.Delete(activeResult);
        }
        activeResult := null;
        activeId := 0;
        p.activeHandle := null;
      }
      assert Consistent();
    }

    /** `SetActiveResult` of a pointer, which takes a result over from its query. What was active before is not deleted,
        and lost if it was not saved. */
    method SetActive(p: Plugin, result: CMySQLResult?)
      requires p.Valid() && this in p.handles && (result != null ==> p.Loose(result))
      modifies this`activeResult, this`activeId, p`activeHandle
      ensures p.Valid() && activeResult == result && activeId == 0
      ensures p.activeHandle == if result != null then this else null
    {
      activeResult := result;
      activeId := 0;
      p.activeHandle := if result != null then this else null;
    }

    /** `mysql_query` with its cache: the result becomes active and is saved. The unthreaded query may have failed, and
        then has no result. */
    method QueryCached(p: Plugin, stored: bool, order: seq<nat>) returns (id: nat)
      requires p.Valid() && this in p.handles && Enumerates(order, saved.Keys) && Vacant(saved.Keys)
      modifies this, p`activeHandle, p`live
      ensures WORD - 1 !in old(saved) || !stored ==> p.Valid()
      ensures stored && WORD - 1 !in old(saved) ==> id != 0
      ensures stored ==> id !in old(saved) && activeId == id && p.activeHandle == this
      ensures stored ==> activeResult != null && saved == old(saved)[id := activeResult] && fresh(activeResult)
      ensures !stored ==> id == 0 && activeResult == null && saved == old(saved) && p.activeHandle == null
    {
      var result: CMySQLResult? := null;
      if stored {
        result := p.NewResult();
      }
      SetActive(p, result);
      id := SaveActiveResult(p, order);
    }

    /** After a callback, during which the script may have done anything: if the handle is still open, its unsaved
        active result is deleted and nothing is active any more. */
    method EndCallback(p: Plugin)
      requires p.Valid()
      modifies this`activeResult, this`activeId, p`activeHandle, p`live
      ensures p.Valid() && p.handles == old(p.handles)
      ensures this !in p.handles ==> unchanged(this) && p.live == old(p.live) && p.activeHandle == old(p.activeHandle)
      ensures this in p.handles ==>
                activeResult == null && activeId == 0 && p.activeHandle == null && saved == old(saved)
      ensures this in p.handles ==>
                p.live == old(p.live) - (if old(activeResult) != null && old(activeId) == 0
                                  then {old(activeResult)} else {})
    {
      if this in p.handles {
        var isSaved := IsActiveResultSaved();
        if !isSaved && activeResult != null {
          p.Delete(activeResult);
        }
        activeResult := null;
        activeId := 0;
        p.activeHandle := null;
        assert Consistent();
      }
    }

    /** `Destroy`: the saved results and an unsaved active one are deleted, and the handle is gone. */
    method Destroy(p: Plugin)
      requires p.Valid() && this in p.handles
      modifies p
      ensures p.Valid() && p.handles == old(p.handles) - {this} && p.live == old(p.live) - old(Owned())
      ensures p.activeHandle == if old(p.activeHandle) == this then null else old(p.activeHandle)
    {
      if p.activeHandle == this {
        p.activeHandle := null;
      }
      p.handles := p.handles - {this};
      p.DeleteAll(saved);
      if activeId == 0 && activeResult != null {
        p.Delete(activeResult);
      }
    }
  }

  lemma ValuesAdd(m: map<nat, CMySQLResult>, id: nat, r: CMySQLResult)
    requires id !in m
    ensures m[id := r].Values == m.Values + {r}
  {
    var n := m[id := r];
    forall v | v in m.Values + {r} ensures v in n.Values {
      if v == r {
        assert n[id] == v;
      } else {
        var k :| k in m && m[k] == v;
        assert n[k] == v;
      }
    }
  }

  /** In a map without shared results, an entry takes its result with it. */
  lemma ValuesRemove(m: map<nat, CMySQLResult>, id: nat)
    requires id in m && forall i, j :: i in m && j in m && i != j ==> m[i] != m[j]
    ensures (m - {id}).Values == m.Values - {m[id]}
  {
    forall v | v in m.Values - {m[id]} ensures v in (m - {id}).Values {
      var k :| k in m && m[k] == v;
      assert (m - {id})[k] == v;
    }
  }
}
