/**
 * Two client sessions against any consistent store, stated as what the client
 * observes: a state that already has a record can be added again and the
 * look-up by state keeps answering with an older record; a region that is
 * created, looked up and deleted is found before and not found after.
 */
module Scenarios {
  import opened Records
  import opened Seqs
  import opened Tables
  import opened Storage
  import opened Routes

  /** The store holds a regional record about `state`. */
  ghost predicate Mentions(storage: MemStorage, state: string)
    reads storage
  {
    exists k :: k in storage.regionalCapacity.entries && storage.regionalCapacity.entries[k].state == state
  }

  /**
   * Appending a fresh record never changes which record the look-up by state
   * finds first, once there is one to find.
   */
  lemma LookupSurvivesAppend(t: Table<RegionalCapacity>, id: Id, c: RegionalCapacity, state: string)
    requires t.Valid() && id !in t.entries
    requires Find(t.Values(), InState(state)).Some?
    ensures Find(t.Set(id, c).Values(), InState(state)) == Find(t.Values(), InState(state))
  {
    SetFresh(t, id, c);
    FindAppend(t.Values(), [c], InState(state));
  }

  /**
   * A second record for a state already present is accepted, and the look-up
   * by that state answers with the very record it answered with before.
   */
  method AddDuplicateState(storage: MemStorage, payload: InsertRegionalCapacity)
    returns (created: Response<RegionalCapacity>, found: Response<RegionalCapacity>)
    requires storage.Valid() && Mentions(storage, payload.state)
    modifies storage
    ensures storage.Valid()
    ensures created.status == 201 && created.body.Json? && created.body.value.state == payload.state
    ensures found.status == 200 && found.body.Json? && found.body.value.state == payload.state
    ensures old(storage.GetRegionalCapacityByState(payload.state)) == Some(found.body.value)
    ensures found.body.value.id != created.body.value.id
  {
    ghost var earlier := storage.regionalCapacity;
    ghost var before := storage.GetRegionalCapacityByState(payload.state);
    assert before == Find(earlier.Values(), InState(payload.state));
    assert before.Some? && earlier.Get(before.value.id) == Some(before.value);
    created := PostRegionalCapacity(storage, Passed(payload));
    LookupSurvivesAppend(earlier, created.body.value.id, created.body.value, payload.state);
    assert storage.GetRegionalCapacityByState(payload.state) == before;
    found := GetRegionalCapacity(storage, payload.state);
  }

  /** No entry of `t` is about `state`. */
  ghost predicate Unmentioned(t: Table<RegionalCapacity>, state: string)
  {
    forall k :: k in t.entries ==> t.entries[k].state != state
  }

  /** After inserting into a table that did not mention `state`, only the new key is about `state`. */
  lemma OnlyNewMentions(t: Table<RegionalCapacity>, id: Id, c: RegionalCapacity, k: Id)
    requires t.Valid() && id !in t.entries && Unmentioned(t, c.state)
    requires k in t.Set(id, c).entries && t.Set(id, c).entries[k].state == c.state
    ensures k == id
  {
  }

  /** A region the store does not mention: created (201), found (200), deleted (204), then not found (404). */
  method CreateFindDelete(storage: MemStorage, payload: InsertRegionalCapacity)
    returns (created: Response<RegionalCapacity>, before: Response<RegionalCapacity>,
             deleted: Response<()>, after: Response<RegionalCapacity>)
    requires storage.Valid() && !Mentions(storage, payload.state)
    modifies storage
    ensures created.status == 201 && created.body.Json?
    ensures before == Response(200, Json(created.body.value))
    ensures deleted == Response(204, NoBody)
    ensures after == Response(404, ErrorJson("Regional capacity data not found"))
    ensures !Mentions(storage, payload.state)
  {
    ghost var earlier := storage.regionalCapacity;
    assert Unmentioned(earlier, payload.state);
    created := PostRegionalCapacity(storage, Passed(payload));
    var c := created.body.value;
    assert storage.regionalCapacity.entries[c.id] == c && c.state == payload.state;
    before := GetRegionalCapacity(storage, payload.state);
    OnlyNewMentions(earlier, c.id, c, before.body.value.id);
    deleted := DeleteRegionalCapacity(storage, c.id);
    DeleteUndoesSet(earlier, c.id, c);
    after := GetRegionalCapacity(storage, payload.state);
  }

}
