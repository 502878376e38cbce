/** Pathly/Data/Repositories/PlanRepositoryImpl.swift: the plan store. It
    keeps ONE JSON blob in UserDefaults under the fixed key "user_plan", so
    it holds at most one plan whatever its owner. JSON coding is foreign
    code: a blob either is the encoding of a plan (`PlanJson`) or is data
    that fails to decode (`Unreadable`, e.g. written by another app version),
    and whether the encoder succeeds is passed in as `encodes`. */
module PlanRepository {
  import opened Wrappers
  import opened Entities

  datatype StorageError = EncodingFailed | DecodingFailed

  /** What UserDefaults holds under the plan key. */
  datatype Blob = PlanJson(plan: Plan) | Unreadable

  /** The slot after `savePlan(plan)`: the new encoding replaces whatever was
      there, or nothing is written when encoding throws. */
  function AfterSave(slot: Option<Blob>, plan: Plan, encodes: bool): (s: Option<Blob>)
    ensures encodes ==> s == Some(PlanJson(plan))
    ensures !encodes ==> s == slot
  {
    if encodes then Some(PlanJson(plan)) else slot
  }

  /** `getPlan(for: userId)` on a given slot: absent when nothing is stored,
      a decoding error when the blob does not decode, and otherwise the plan
      only if it belongs to `userId`. */
  function Lookup(slot: Option<Blob>, userId: Uuid): (r: Result<Option<Plan>, StorageError>)
    ensures r.Err? <==> slot == Some(Unreadable)
    ensures r.Err? ==> r.error == DecodingFailed
    ensures r.Ok? && r.value.Some? <==> slot.Some? && slot.value.PlanJson? && slot.value.plan.userId == userId
    ensures r.Ok? && r.value.Some? ==> Some(PlanJson(r.value.value)) == slot
  {
    match slot
    case None => Ok(None)
    case Some(Unreadable) => Err(DecodingFailed)
    case Some(PlanJson(p)) => if p.userId == userId then Ok(Some(p)) else Ok(None)
  }

  /** Before anything is saved, no owner has a plan. */
  lemma EmptyStoreHasNoPlan(userId: Uuid)
    ensures Lookup(None, userId) == Ok(None)
  {
  }

  /** A saved plan is returned to its owner, whatever the slot held before. */
  lemma SaveThenGet(slot: Option<Blob>, plan: Plan)
    ensures Lookup(AfterSave(slot, plan, true), plan.userId) == Ok(Some(plan))
  {
  }

  /** A saved plan is never returned to anyone but its owner. */
  lemma SaveThenGetOther(slot: Option<Blob>, plan: Plan, userId: Uuid)
    requires userId != plan.userId
    ensures Lookup(AfterSave(slot, plan, true), userId) == Ok(None)
  {
  }

  /** One fixed key: saving B's plan after A's loses A's plan. */
  lemma SaveEvictsOtherOwner(slot: Option<Blob>, a: Plan, b: Plan)
    requires a.userId != b.userId
    ensures Lookup(AfterSave(AfterSave(slot, a, true), b, true), a.userId) == Ok(None)
    ensures Lookup(AfterSave(AfterSave(slot, a, true), b, true), b.userId) == Ok(Some(b))
  {
  }

  class PlanRepositoryImpl {
    /** `userDefaults.data(forKey: planKey)`. */
    var slot: Option<Blob>
    /** Every plan `savePlan` was asked to store, in call order. */
    ghost var saveCalls: seq<Plan>

    /** A repository over UserDefaults that already hold `stored` under the key. */
    constructor (stored: Option<Blob>)
      ensures slot == stored && saveCalls == []
    {
      slot := stored;
      saveCalls := [];
    }

    method SavePlan(plan: Plan, encodes: bool) returns (r: Result<(), StorageError>)
      modifies this
      ensures r == (if encodes then Ok(()) else Err(EncodingFailed))
      ensures slot == AfterSave(old(slot), plan, encodes)
      ensures saveCalls == old(saveCalls) + [plan]
    {
      saveCalls := saveCalls + [plan];
      if !encodes {
        return Err(EncodingFailed);
      }
      slot := Some(PlanJson(plan));
      r := Ok(());
    }

    /** Reading never changes the slot. */
    method GetPlan(userId: Uuid) returns (r: Result<Option<Plan>, StorageError>)
      ensures r == Lookup(slot, userId)
    {
      r := Lookup(slot, userId);
    }

    /** `updatePlan` is `savePlan`. */
    method UpdatePlan(plan: Plan, encodes: bool) returns (r: Result<(), StorageError>)
      modifies this
      ensures r == (if encodes then Ok(()) else Err(EncodingFailed))
      ensures slot == AfterSave(old(slot), plan, encodes)
      ensures saveCalls == old(saveCalls) + [plan]
    {
      r := SavePlan(plan, encodes);
    }
  }
}
