/** What every request holds of the GPU budgets and of the KV cache
    (src/scheduler/scheduler.cpp:175-231, 591-602). */
module Resources {
  import opened Wrappers
  import opened Words
  import opened Sums
  import opened KvCache
  import opened Routing
  import opened Allocator

  type Id = nat

  /** How far a request is with its memory: history, never read by the code. The last three are those
      of a split handle that the pooled allocator has freed and left valid: not freed again, its budget
      released a second time, and freed a second time. */
  datatype Phase = Bare | Reserved | Allocated | Charged | KvOnly | Released | Stale | Drawn | Overdrawn

  /** `seqLen` is the prompt length plus the token limit; `gpus` is `assigned_devices`. */
  datatype Hold = Hold(seqLen: nat, handle: Handle, gpus: seq<DeviceId>, phase: Phase)

  /** `owner`, `obtained` and `released` are history: who holds each live allocation, and the
      allocation ids in the order in which they were handed out and given back. A cleared handle has
      id 0 and names no allocation. */
  datatype Res = Res(
    hold: map<Id, Hold>, budgets: seq<Budget>, roundRobin: nat, alloc: Allocator,
    owner: map<nat, Id>, obtained: seq<nat>, released: seq<nat>)

  function Bytes(h: Hold): nat { EstimateKv(h.seqLen) }

  function Put(r: Res, id: Id, h: Hold): Res { r.(hold := r.hold[id := h]) }

  function Enter(r: Res, id: Id, seqLen: nat): Res { Put(r, id, Hold(seqLen, NO_HANDLE, [], Bare)) }

  predicate Usable(d: Decision) { d.strategy.TensorParallel? ==> d.devices != [] }

  function ReserveGpu(r: Res, id: Id, d: Decision): Res
    requires id in r.hold && Usable(d)
  {
    var h := r.hold[id];
    Put(r, id, h.(gpus := d.devices, phase := Reserved)).(budgets := Reserve(r.budgets, d, Bytes(h)))
  }

  function AllocateKv(r: Res, id: Id, split: seq<DeviceId>, grants: seq<Grant>): (Res, Option<Error>)
    requires id in r.hold && Coherent(r.alloc)
  {
    var h := r.hold[id];
    var (a, result) := Allocate(r.alloc, h.seqLen, split, grants);
    match result
    case Err(e) => (r.(alloc := a), Some(e))
    case Ok(handle) =>
      (Put(r, id, h.(handle := handle, phase := Allocated)).(
         alloc := a, owner := r.owner[handle.id := id], obtained := r.obtained + [handle.id]), None)
  }

  function UnreserveGpu(r: Res, id: Id, d: Decision): Res
    requires id in r.hold && Usable(d)
  {
    var h := r.hold[id];
    Put(r, id, h.(phase := Bare)).(budgets := Unreserve(r.budgets, d, Bytes(h)))
  }

  function CommitGpu(r: Res, id: Id, d: Decision): Res
    requires id in r.hold && Usable(d)
  {
    var h := r.hold[id];
    Put(r, id, h.(phase := Charged)).(budgets := Commit(r.budgets, d, Bytes(h)))
  }

  function SetLength(r: Res, id: Id, n: nat): Res
    requires id in r.hold
  {
    Put(r, id, r.hold[id].(handle := r.hold[id].handle.(currentLen := n)))
  }

  function FreeBudget(r: Res, id: Id, hasRouter: bool): Res
    requires id in r.hold
  {
    var h := r.hold[id];
    Put(r, id, h.(phase := if h.phase.Stale? then Drawn else KvOnly)).(
      budgets := if hasRouter && h.gpus != [] then Release(r.budgets, h.gpus, Bytes(h)) else r.budgets)
  }

  function FreeKv(r: Res, id: Id): Res
    requires id in r.hold && Coherent(r.alloc)
  {
    var h := r.hold[id];
    var (a, handle) := GiveBack(r.alloc, h.handle);
    Put(r, id, h.(handle := handle, phase := AfterFreeKv(h.phase, handle))).(
      alloc := a, owner := r.owner - {h.handle.id},
      released := if h.handle.id == 0 then r.released else r.released + [h.handle.id])
  }

  function AfterFreeKv(phase: Phase, handle: Handle): Phase {
    if phase.Drawn? then Overdrawn else if handle.IsValid() then Stale else Released
  }

  // ---------------------------------------------------------------- meters

  /** The share of one device's budget that a request stands for. */
  function ShareOn(h: Hold, d: DeviceId): nat {
    if d in h.gpus then FreeShare(h.gpus, Bytes(h)) else 0
  }

  function ReservedBy(h: Hold, d: DeviceId): nat {
    if h.phase.Reserved? || h.phase.Allocated? then ShareOn(h, d) else 0
  }

  /** What a request was released too much. */
  function OverdrawnBy(h: Hold, d: DeviceId): nat {
    if h.phase.Drawn? || h.phase.Overdrawn? then ShareOn(h, d) else 0
  }

  function UsedBy(h: Hold, d: DeviceId): int {
    (if h.phase.Charged? then ShareOn(h, d) else 0) - OverdrawnBy(h, d)
  }

  function ReservedAt(hold: map<Id, Hold>, d: DeviceId): Id -> int {
    (id: Id) => if id in hold then ReservedBy(hold[id], d) else 0
  }

  function UsedAt(hold: map<Id, Hold>, d: DeviceId): Id -> int {
    (id: Id) => if id in hold then UsedBy(hold[id], d) else 0
  }

  function HeldAt(a: Allocator, hold: map<Id, Hold>, d: DeviceId): Id -> int {
    (id: Id) => if id in hold then HeldOn(a, hold[id].handle, d) else 0
  }

  // ---------------------------------------------------------------- invariant

  /** The list `order` names every request once. */
  ghost predicate Lists(order: seq<Id>, hold: map<Id, Hold>) {
    Distinct(order) && forall id :: id in order <==> id in hold
  }

  /** Each counter is, modulo the word size, the sum of the shares it stands for. */
  ghost predicate BudgetOk(b: Budget, order: seq<Id>, hold: map<Id, Hold>) {
    && b.reserved == Wrap(Sum(order, ReservedAt(hold, b.device)))
    && b.used == Wrap(Sum(order, UsedAt(hold, b.device)))
  }

  ghost predicate BudgetsOk(budgets: seq<Budget>, order: seq<Id>, hold: map<Id, Hold>) {
    forall i :: 0 <= i < |budgets| ==> BudgetOk(budgets[i], order, hold)
  }

  ghost predicate Keeps(p: Phase) { p.Allocated? || p.Charged? || p.KvOnly? }

  predicate Lingers(p: Phase) { p.Stale? || p.Drawn? || p.Overdrawn? }

  /** What a request may hold at each phase; a handle it holds is the allocator's and sized for it. */
  ghost predicate HoldOk(id: Id, h: Hold, owner: map<nat, Id>, a: Allocator) {
    && (h.handle.IsValid() <==> Keeps(h.phase) || Lingers(h.phase))
    && (Keeps(h.phase) ==>
          && h.handle.id in owner && owner[h.handle.id] == id
          && Issued(a, h.handle) && h.handle.maxSeqLen == h.seqLen)
    && (Lingers(h.phase) ==> a.OfPool? && h.handle.tensorParallel && h.handle.id == 0)
  }

  ghost predicate OwnsAt(hold: map<Id, Hold>, owner: map<nat, Id>, a: Allocator, id: Id) {
    id in hold && HoldOk(id, hold[id], owner, a)
  }

  /** Handles and live allocations correspond one to one. */
  ghost predicate Owned(hold: map<Id, Hold>, owner: map<nat, Id>, a: Allocator) {
    && owner.Keys == Live(a)
    && (forall i :: i in owner ==>
          owner[i] in hold && Keeps(hold[owner[i]].phase) && hold[owner[i]].handle.id == i)
    && (forall id {:trigger OwnsAt(hold, owner, a, id)} :: id in hold ==> OwnsAt(hold, owner, a, id))
  }

  /** Each allocation handed out is live or was given back, and given back once. */
  ghost predicate Ledger(obtained: seq<nat>, released: seq<nat>, a: Allocator) {
    && Distinct(obtained) && Distinct(released)
    && (forall i :: i in obtained ==> i < NextId(a) && (i in Live(a) || i in released))
    && (forall i :: i in Live(a) ==> i in obtained)
    && (forall i :: i in released ==> i in obtained && i !in Live(a))
  }

  /** The allocator counts the bytes of the handles held, apart from what it leaked. */
  ghost predicate BytesOk(a: Allocator, order: seq<Id>, hold: map<Id, Hold>) {
    forall d :: Counts(a, d) ==> NetUsed(a, d) == Sum(order, HeldAt(a, hold, d))
  }

  ghost predicate Inv(r: Res, order: seq<Id>) {
    && Coherent(r.alloc) && Lists(order, r.hold) && BudgetsOk(r.budgets, order, r.hold)
    && Owned(r.hold, r.owner, r.alloc) && Ledger(r.obtained, r.released, r.alloc) && BytesOk(r.alloc, order, r.hold)
  }

  // ---------------------------------------------------------------- sums follow the change of one request

  lemma ReservedChange(order: seq<Id>, hold: map<Id, Hold>, id: Id, h: Hold, d: DeviceId)
    requires Lists(order, hold) && id in hold
    ensures Sum(order, ReservedAt(hold[id := h], d))
      == Sum(order, ReservedAt(hold, d)) + ReservedBy(h, d) - ReservedBy(hold[id], d)
  {
    SumChange(order, ReservedAt(hold, d), ReservedAt(hold[id := h], d), id);
  }

  lemma UsedChange(order: seq<Id>, hold: map<Id, Hold>, id: Id, h: Hold, d: DeviceId)
    requires Lists(order, hold) && id in hold
    ensures Sum(order, UsedAt(hold[id := h], d)) == Sum(order, UsedAt(hold, d)) + UsedBy(h, d) - UsedBy(hold[id], d)
  {
    SumChange(order, UsedAt(hold, d), UsedAt(hold[id := h], d), id);
  }

  /** Every request but `id` owns the same bytes of device `d` under both allocators. */
  ghost predicate OthersSame(a: Allocator, b: Allocator, order: seq<Id>, hold: map<Id, Hold>, id: Id, d: DeviceId) {
    forall x :: x in order && x != id && x in hold ==> HeldOn(b, hold[x].handle, d) == HeldOn(a, hold[x].handle, d)
  }

  lemma HeldChange(a: Allocator, b: Allocator, order: seq<Id>, hold: map<Id, Hold>, id: Id, h: Hold, d: DeviceId)
    requires Lists(order, hold) && id in hold && OthersSame(a, b, order, hold, id, d)
    ensures Sum(order, HeldAt(b, hold[id := h], d))
         == Sum(order, HeldAt(a, hold, d)) + HeldOn(b, h.handle, d) - HeldOn(a, hold[id].handle, d)
  {
    SumChange(order, HeldAt(a, hold, d), HeldAt(b, hold[id := h], d), id);
  }

  /** One counter pair moves by what the meters of one request move. */
  lemma BudgetShift(b: Budget, order: seq<Id>, hold: map<Id, Hold>, id: Id, h: Hold, dr: int, du: int)
    requires BudgetOk(b, order, hold) && Lists(order, hold) && id in hold
    requires ReservedBy(h, b.device) - ReservedBy(hold[id], b.device) == dr
    requires UsedBy(h, b.device) - UsedBy(hold[id], b.device) == du
    ensures BudgetOk(b.(reserved := Wrap(b.reserved + dr), used := Wrap(b.used + du)), order, hold[id := h])
    ensures dr == 0 && du == 0 ==> BudgetOk(b, order, hold[id := h])
  {
    ReservedChange(order, hold, id, h, b.device);
    UsedChange(order, hold, id, h, b.device);
    WrapAdd(Sum(order, ReservedAt(hold, b.device)), dr);
    WrapAdd(Sum(order, UsedAt(hold, b.device)), du);
  }

  /** Moving the counters of the devices a request is on, by what its own meters move. */
  lemma ShiftOk(budgets: seq<Budget>, order: seq<Id>, hold: map<Id, Hold>, id: Id, h: Hold, devices: seq<DeviceId>,
    dr: int, du: int)
    requires BudgetsOk(budgets, order, hold) && Lists(order, hold) && id in hold
    requires forall d :: ReservedBy(h, d) - ReservedBy(hold[id], d) == if d in devices then dr else 0
    requires forall d :: UsedBy(h, d) - UsedBy(hold[id], d) == if d in devices then du else 0
    ensures BudgetsOk(Shift(budgets, devices, dr, du), order, hold[id := h])
  {
    hide BudgetOk;
    var after := Shift(budgets, devices, dr, du);
    forall i | 0 <= i < |after| ensures BudgetOk(after[i], order, hold[id := h]) {
      assert BudgetOk(budgets[i], order, hold);
      if budgets[i].device in devices {
        BudgetShift(budgets[i], order, hold, id, h, dr, du);
      } else {
        BudgetShift(budgets[i], order, hold, id, h, 0, 0);
      }
    }
  }

  /** A change that moves no meter leaves the budgets right. */
  lemma SameMeters(budgets: seq<Budget>, order: seq<Id>, hold: map<Id, Hold>, id: Id, h: Hold)
    requires BudgetsOk(budgets, order, hold) && Lists(order, hold) && id in hold
    requires forall d :: ReservedBy(h, d) == ReservedBy(hold[id], d) && UsedBy(h, d) == UsedBy(hold[id], d)
    ensures BudgetsOk(budgets, order, hold[id := h])
  {
    forall i | 0 <= i < |budgets| ensures BudgetOk(budgets[i], order, hold[id := h]) {
      assert BudgetOk(budgets[i], order, hold);
      BudgetShift(budgets[i], order, hold, id, h, 0, 0);
    }
  }

  lemma SameBytes(a: Allocator, order: seq<Id>, hold: map<Id, Hold>, id: Id, h: Hold)
    requires BytesOk(a, order, hold) && Lists(order, hold) && id in hold
    requires forall d :: HeldOn(a, h.handle, d) == HeldOn(a, hold[id].handle, d)
    ensures BytesOk(a, order, hold[id := h])
  {
    hide BudgetsOk;
    forall d | Counts(a, d) ensures NetUsed(a, d) == Sum(order, HeldAt(a, hold[id := h], d)) {
      HeldChange(a, a, order, hold, id, h, d);
    }
  }

  /** A request that keeps its allocation, or keeps having none, leaves the correspondence as it is. */
  lemma OwnedSame(hold: map<Id, Hold>, owner: map<nat, Id>, a: Allocator, id: Id, h: Hold)
    requires Owned(hold, owner, a) && id in hold
    requires Keeps(h.phase) == Keeps(hold[id].phase) && Lingers(h.phase) == Lingers(hold[id].phase)
    requires h.handle.(currentLen := 0) == hold[id].handle.(currentLen := 0) && h.seqLen == hold[id].seqLen
    ensures Owned(hold[id := h], owner, a)
  {
    var after := hold[id := h];
    forall x | x in after ensures OwnsAt(after, owner, a, x) {
      assert OwnsAt(hold, owner, a, x);
    }
  }

  lemma OwnedNew(hold: map<Id, Hold>, owner: map<nat, Id>, a: Allocator, id: Id, h: Hold)
    requires Owned(hold, owner, a) && id !in hold && h.phase.Bare? && !h.handle.IsValid()
    ensures Owned(hold[id := h], owner, a)
  {
    var after := hold[id := h];
    forall x | x in after ensures OwnsAt(after, owner, a, x) {
      assert x != id ==> OwnsAt(hold, owner, a, x);
    }
  }

  lemma OwnedAlloc(hold: map<Id, Hold>, owner: map<nat, Id>, a: Allocator, b: Allocator)
    requires Owned(hold, owner, a) && Live(b) == Live(a) && (a.OfPool? <==> b.OfPool?)
    requires forall g :: StillIssued(a, b, g)
    ensures Owned(hold, owner, b)
  {
    forall x | x in hold ensures OwnsAt(hold, owner, b, x) {
      assert OwnsAt(hold, owner, a, x) && StillIssued(a, b, hold[x].handle);
    }
  }

  // ---------------------------------------------------------------- every step keeps the invariant

  lemma EnterBudgets(budgets: seq<Budget>, order: seq<Id>, hold: map<Id, Hold>, id: Id, h: Hold)
    requires BudgetsOk(budgets, order, hold) && Lists(order, hold) && id !in hold && h.phase.Bare?
    ensures BudgetsOk(budgets, order + [id], hold[id := h])
  {
    forall i | 0 <= i < |budgets| ensures BudgetOk(budgets[i], order + [id], hold[id := h]) {
      var d := budgets[i].device;
      assert BudgetOk(budgets[i], order, hold);
      SumAppend(order, id, ReservedAt(hold[id := h], d));
      SumSame(order, ReservedAt(hold, d), ReservedAt(hold[id := h], d));
      SumAppend(order, id, UsedAt(hold[id := h], d));
      SumSame(order, UsedAt(hold, d), UsedAt(hold[id := h], d));
    }
  }

  lemma EnterBytes(a: Allocator, order: seq<Id>, hold: map<Id, Hold>, id: Id, h: Hold)
    requires BytesOk(a, order, hold) && Lists(order, hold) && id !in hold && !h.handle.IsValid()
    ensures BytesOk(a, order + [id], hold[id := h])
  {
    forall d | Counts(a, d) ensures NetUsed(a, d) == Sum(order + [id], HeldAt(a, hold[id := h], d)) {
      SumAppend(order, id, HeldAt(a, hold[id := h], d));
      SumSame(order, HeldAt(a, hold, d), HeldAt(a, hold[id := h], d));
    }
  }

  lemma EnterKeeps(r: Res, order: seq<Id>, id: Id, seqLen: nat)
    requires Inv(r, order) && id !in r.hold
    ensures Inv(Enter(r, id, seqLen), order + [id])
  {
    hide Owned, Coherent;
    var h := Hold(seqLen, NO_HANDLE, [], Bare);
    DistinctAppend(order, id);
    EnterBudgets(r.budgets, order, r.hold, id, h);
    EnterBytes(r.alloc, order, r.hold, id, h);
    OwnedNew(r.hold, r.owner, r.alloc, id, h);
  }

  /** The decision names the devices the request was assigned, and both ways to compute the share agree. */
  ghost predicate Matches(h: Hold, d: Decision) {
    h.gpus == d.devices && Usable(d) && Share(d, Bytes(h)) == FreeShare(d.devices, Bytes(h))
  }

  lemma ReserveKeeps(r: Res, order: seq<Id>, id: Id, d: Decision)
    requires Inv(r, order) && id in r.hold && r.hold[id].phase.Bare?
    requires Usable(d) && Share(d, Bytes(r.hold[id])) == FreeShare(d.devices, Bytes(r.hold[id]))
    ensures Inv(ReserveGpu(r, id, d), order) && Matches(ReserveGpu(r, id, d).hold[id], d)
  {
    hide Owned, Ledger, Coherent;
    var h := r.hold[id];
    var h' := h.(gpus := d.devices, phase := Reserved);
    ShiftOk(r.budgets, order, r.hold, id, h', d.devices, Share(d, Bytes(h)), 0);
    SameBytes(r.alloc, order, r.hold, id, h');
    OwnedSame(r.hold, r.owner, r.alloc, id, h');
  }

  lemma UnreserveKeeps(r: Res, order: seq<Id>, id: Id, d: Decision)
    requires Inv(r, order) && id in r.hold && r.hold[id].phase.Reserved? && Matches(r.hold[id], d)
    ensures Inv(UnreserveGpu(r, id, d), order)
  {
    hide BudgetsOk, Owned, Ledger, Coherent;
    var h := r.hold[id];
    var h' := h.(phase := Bare);
    ShiftOk(r.budgets, order, r.hold, id, h', d.devices, 0 - Share(d, Bytes(h)), 0);
    SameBytes(r.alloc, order, r.hold, id, h');
    OwnedSame(r.hold, r.owner, r.alloc, id, h');
  }

  lemma CommitKeeps(r: Res, order: seq<Id>, id: Id, d: Decision)
    requires Inv(r, order) && id in r.hold && r.hold[id].phase.Allocated? && Matches(r.hold[id], d)
    ensures Inv(CommitGpu(r, id, d), order)
  {
    hide BudgetsOk, Owned, Ledger, Coherent;
    var h := r.hold[id];
    var h' := h.(phase := Charged);
    ShiftOk(r.budgets, order, r.hold, id, h', d.devices, 0 - Share(d, Bytes(h)), Share(d, Bytes(h)));
    SameBytes(r.alloc, order, r.hold, id, h');
    OwnedSame(r.hold, r.owner, r.alloc, id, h');
  }

  /** Releasing moves the used meter down by the share, on the devices of the request. */
  lemma ReleaseMeters(h: Hold, phase: Phase)
    requires (h.phase.Charged? && phase.KvOnly?) || (h.phase.Stale? && phase.Drawn?)
    ensures var h' := h.(phase := phase);
      && (forall d :: ReservedBy(h', d) == 0 && ReservedBy(h, d) == 0)
      && forall d :: UsedBy(h', d) - UsedBy(h, d) == if d in h.gpus then 0 - FreeShare(h.gpus, Bytes(h)) else 0
  {
  }

  /** The budget is released: the share of a charged request, or once too often. */
  lemma FreeBudgetOk(budgets: seq<Budget>, order: seq<Id>, hold: map<Id, Hold>, id: Id, hasRouter: bool, phase: Phase)
    requires BudgetsOk(budgets, order, hold) && Lists(order, hold) && id in hold && (!hasRouter ==> budgets == [])
    requires (hold[id].phase.Charged? && phase.KvOnly?) || (hold[id].phase.Stale? && phase.Drawn?)
    ensures var h := hold[id];
      BudgetsOk(if hasRouter && h.gpus != [] then Release(budgets, h.gpus, Bytes(h)) else budgets,
                order, hold[id := h.(phase := phase)])
  {
    hide BudgetsOk;
    var h := hold[id];
    var h' := h.(phase := phase);
    ReleaseMeters(h, phase);
    if h.gpus != [] {
      ShiftOk(budgets, order, hold, id, h', h.gpus, 0, 0 - FreeShare(h.gpus, Bytes(h)));
    } else {
      SameMeters(budgets, order, hold, id, h');
    }
  }

  lemma FreeBudgetKeeps(r: Res, order: seq<Id>, id: Id, hasRouter: bool)
    requires Inv(r, order) && id in r.hold && (r.hold[id].phase.Charged? || r.hold[id].phase.Stale?)
    requires !hasRouter ==> r.budgets == []
    ensures Inv(FreeBudget(r, id, hasRouter), order)
  {
    hide BudgetsOk, Owned, Coherent;
    var phase := if r.hold[id].phase.Stale? then Drawn else KvOnly;
    var h' := r.hold[id].(phase := phase);
    FreeBudgetOk(r.budgets, order, r.hold, id, hasRouter, phase);
    SameBytes(r.alloc, order, r.hold, id, h');
    OwnedSame(r.hold, r.owner, r.alloc, id, h');
  }

  lemma SetLengthKeeps(r: Res, order: seq<Id>, id: Id, n: nat)
    requires Inv(r, order) && id in r.hold
    ensures Inv(SetLength(r, id, n), order)
  {
    hide Owned, Ledger, Coherent;
    var h' := r.hold[id].(handle := r.hold[id].handle.(currentLen := n));
    SameMeters(r.budgets, order, r.hold, id, h');
    SameBytes(r.alloc, order, r.hold, id, h');
    OwnedSame(r.hold, r.owner, r.alloc, id, h');
  }

  /** The handle of every request is the allocator's, or owns nothing. */
  lemma HandleKind(r: Res, id: Id)
    requires Owned(r.hold, r.owner, r.alloc) && id in r.hold
    ensures Issued(r.alloc, r.hold[id].handle) || Cleared(r.hold[id].handle)
  {
    assert OwnsAt(r.hold, r.owner, r.alloc, id);
  }

  lemma AllocateBytesOk(r: Res, order: seq<Id>, id: Id, split: seq<DeviceId>, grants: seq<Grant>)
    requires Coherent(r.alloc) && Lists(order, r.hold) && Owned(r.hold, r.owner, r.alloc)
    requires BytesOk(r.alloc, order, r.hold)
    requires id in r.hold && !r.hold[id].handle.IsValid() && Distinct(split)
    ensures var r' := AllocateKv(r, id, split, grants).0; BytesOk(r'.alloc, order, r'.hold)
  {
    var h := r.hold[id];
    var (a, result) := Allocate(r.alloc, h.seqLen, split, grants);
    var h' := if result.Ok? then h.(handle := result.value, phase := Allocated) else h;
    assert r.hold[id := h] == r.hold;
    AllocateEffect(r.alloc, h.seqLen, split, grants);
    forall d | Counts(a, d) ensures NetUsed(a, d) == Sum(order, HeldAt(a, r.hold[id := h'], d)) {
      assert Counts(r.alloc, d);
      AllocateBytes(r.alloc, h.seqLen, split, grants, d);
      forall x | x in order && x != id && x in r.hold
        ensures HeldOn(a, r.hold[x].handle, d) == HeldOn(r.alloc, r.hold[x].handle, d)
      {
        HandleKind(r, x);
        AllocateKeepsBytes(r.alloc, h.seqLen, split, grants, r.hold[x].handle, d);
      }
      HeldChange(r.alloc, a, order, r.hold, id, h', d);
    }
  }

  lemma AllocateKeeps(r: Res, order: seq<Id>, id: Id, split: seq<DeviceId>, grants: seq<Grant>)
    requires Inv(r, order) && id in r.hold && r.hold[id].phase.Reserved? && Distinct(split)
    ensures Inv(AllocateKv(r, id, split, grants).0, order)
  {
    hide Ledger, Coherent, BudgetOk, Issued, Allocate;
    var h := r.hold[id];
    var (a, result) := Allocate(r.alloc, h.seqLen, split, grants);
    assert OwnsAt(r.hold, r.owner, r.alloc, id);
    AllocateEffect(r.alloc, h.seqLen, split, grants);
    var h' := if result.Ok? then h.(handle := result.value, phase := Allocated) else h;
    SameMeters(r.budgets, order, r.hold, id, h');
    assert r.hold[id := h] == r.hold;
    AllocateBytesOk(r, order, id, split, grants);
    AllocateOwned(r, id, split, grants);
    AllocateLedger(r, id, split, grants);
  }

  lemma AllocateOwned(r: Res, id: Id, split: seq<DeviceId>, grants: seq<Grant>)
    requires Coherent(r.alloc) && Owned(r.hold, r.owner, r.alloc) && id in r.hold && r.hold[id].phase.Reserved?
    requires Distinct(split)
    ensures var r' := AllocateKv(r, id, split, grants).0; Owned(r'.hold, r'.owner, r'.alloc)
  {
    hide Coherent, Allocate;
    var h := r.hold[id];
    var (a, result) := Allocate(r.alloc, h.seqLen, split, grants);
    AllocateEffect(r.alloc, h.seqLen, split, grants);
    if result.Ok? {
      if NextId(r.alloc) in Live(r.alloc) {
        IdsBelowNext(r.alloc, NextId(r.alloc));
      }
      assert OwnsAt(r.hold, r.owner, r.alloc, id);
      OwnedAdd(r.hold, r.owner, r.alloc, a, id, h.(handle := result.value, phase := Allocated));
    } else {
      OwnedAlloc(r.hold, r.owner, r.alloc, a);
    }
  }

  lemma OwnedAdd(hold: map<Id, Hold>, owner: map<nat, Id>, a: Allocator, b: Allocator, id: Id, h: Hold)
    requires Owned(hold, owner, a) && id in hold && !hold[id].handle.IsValid() && h.phase.Allocated?
    requires h.handle.IsValid() && h.handle.id !in owner && Live(b) == Live(a) + {h.handle.id}
    requires (forall g :: StillIssued(a, b, g)) && Issued(b, h.handle) && (a.OfPool? <==> b.OfPool?)
    requires h.handle.maxSeqLen == h.seqLen
    ensures Owned(hold[id := h], owner[h.handle.id := id], b)
  {
    var after := hold[id := h];
    assert OwnsAt(hold, owner, a, id);
    forall x | x in after ensures OwnsAt(after, owner[h.handle.id := id], b, x) {
      assert OwnsAt(hold, owner, a, x) && StillIssued(a, b, hold[x].handle);
    }
  }

  lemma AllocateLedger(r: Res, id: Id, split: seq<DeviceId>, grants: seq<Grant>)
    requires Coherent(r.alloc) && Ledger(r.obtained, r.released, r.alloc) && id in r.hold && Distinct(split)
    ensures var r' := AllocateKv(r, id, split, grants).0; Ledger(r'.obtained, r'.released, r'.alloc)
  {
    AllocateEffect(r.alloc, r.hold[id].seqLen, split, grants);
    if NextId(r.alloc) !in r.obtained {
      DistinctAppend(r.obtained, NextId(r.alloc));
    }
  }

  /** Given back bytes were counted. */
  lemma HeldIsCounted(r: Res, order: seq<Id>, id: Id)
    requires Inv(r, order) && id in r.hold
    ensures Covered(r.alloc, r.hold[id].handle)
  {
    hide BudgetsOk, Coherent;
    if r.alloc.OfContiguous? {
      forall d | d in r.alloc.c.stats ensures HeldOn(r.alloc, r.hold[id].handle, d) <= r.alloc.c.stats[d].used {
        assert Counts(r.alloc, d);
        SumNonNegative(order, HeldAt(r.alloc, r.hold, d));
        assert HeldAt(r.alloc, r.hold, d)(id) <= Sum(order, HeldAt(r.alloc, r.hold, d));
      }
    }
  }

  /** The handle of another request is not the one being freed. */
  lemma OtherHandle(r: Res, id: Id, x: Id)
    requires Owned(r.hold, r.owner, r.alloc) && id in r.hold && x in r.hold && x != id && Keeps(r.hold[id].phase)
    ensures var g := r.hold[x].handle; (Issued(r.alloc, g) && g.id != r.hold[id].handle.id) || Cleared(g)
  {
    assert OwnsAt(r.hold, r.owner, r.alloc, id) && OwnsAt(r.hold, r.owner, r.alloc, x);
  }

  lemma FreeBytesOk(r: Res, order: seq<Id>, id: Id, h': Hold)
    requires Coherent(r.alloc) && Lists(order, r.hold) && Owned(r.hold, r.owner, r.alloc)
    requires BytesOk(r.alloc, order, r.hold)
    requires id in r.hold && Keeps(r.hold[id].phase) && Covered(r.alloc, r.hold[id].handle)
    requires h'.handle == GiveBack(r.alloc, r.hold[id].handle).1
    ensures BytesOk(GiveBack(r.alloc, r.hold[id].handle).0, order, r.hold[id := h'])
  {
    var h := r.hold[id];
    var a := GiveBack(r.alloc, h.handle).0;
    assert OwnsAt(r.hold, r.owner, r.alloc, id);
    FreeEffect(r.alloc, h.handle);
    forall d | Counts(a, d) ensures NetUsed(a, d) == Sum(order, HeldAt(a, r.hold[id := h'], d)) {
      assert Counts(r.alloc, d);
      FreeBytes(r.alloc, h.handle, d);
      forall x | x in order && x != id && x in r.hold
        ensures HeldOn(a, r.hold[x].handle, d) == HeldOn(r.alloc, r.hold[x].handle, d)
      {
        OtherHandle(r, id, x);
        FreeKeepsBytes(r.alloc, h.handle, r.hold[x].handle, d);
      }
      HeldChange(r.alloc, a, order, r.hold, id, h', d);
      FreedOwnsNothing(a, h'.handle, d);
    }
  }

  lemma FreedOwnsNothing(a: Allocator, h: Handle, d: DeviceId)
    requires Coherent(a) && h.id == 0 && (h.IsValid() ==> a.OfPool?)
    ensures HeldOn(a, h, d) == 0
  {
  }

  /** An allocation is given back. */
  lemma FreeOnce(r: Res, order: seq<Id>, id: Id)
    requires Inv(r, order) && id in r.hold && r.hold[id].phase.KvOnly?
    ensures Inv(FreeKv(r, id), order)
  {
    var h := r.hold[id];
    var (a, handle) := GiveBack(r.alloc, h.handle);
    assert OwnsAt(r.hold, r.owner, r.alloc, id);
    HeldIsCounted(r, order, id);
    FreeEffect(r.alloc, h.handle);
    var h' := h.(handle := handle, phase := AfterFreeKv(h.phase, handle));
    SameMeters(r.budgets, order, r.hold, id, h');
    FreeBytesOk(r, order, id, h');
    OwnedRemove(r.hold, r.owner, r.alloc, a, id, h');
    DistinctAppend(r.released, h.handle.id);
  }

  lemma OwnedRemove(hold: map<Id, Hold>, owner: map<nat, Id>, a: Allocator, b: Allocator, id: Id, h: Hold)
    requires Owned(hold, owner, a) && id in hold && Keeps(hold[id].phase) && Live(b) == Live(a) - {hold[id].handle.id}
    requires if h.handle.IsValid() then h.phase.Stale? && b.OfPool? && h.handle.tensorParallel && h.handle.id == 0
             else h.phase.Released?
    requires (forall g: Handle :: g.id != hold[id].handle.id ==> StillIssued(a, b, g)) && (a.OfPool? <==> b.OfPool?)
    ensures Owned(hold[id := h], owner - {hold[id].handle.id}, b)
  {
    assert OwnsAt(hold, owner, a, id);
    var after := hold[id := h];
    forall x | x in after ensures OwnsAt(after, owner - {hold[id].handle.id}, b, x) {
      assert OwnsAt(hold, owner, a, x);
      assert x != id && Keeps(hold[x].phase) ==> StillIssued(a, b, hold[x].handle);
    }
  }

  /** A handle that was left valid is freed again: nothing is given back. */
  lemma FreeTwice(r: Res, order: seq<Id>, id: Id)
    requires Inv(r, order) && id in r.hold && r.hold[id].phase.Drawn?
    ensures Inv(FreeKv(r, id), order)
  {
    hide Ledger, Coherent;
    var h := r.hold[id];
    assert OwnsAt(r.hold, r.owner, r.alloc, id);
    FreeAgain(r.alloc, h.handle);
    var h' := h.(handle := GiveBack(r.alloc, h.handle).1, phase := Overdrawn);
    SameMeters(r.budgets, order, r.hold, id, h');
    forall d ensures HeldOn(r.alloc, h'.handle, d) == HeldOn(r.alloc, h.handle, d) {
      FreedOwnsNothing(r.alloc, h.handle, d);
      FreedOwnsNothing(r.alloc, h'.handle, d);
    }
    SameBytes(r.alloc, order, r.hold, id, h');
    OwnedLingers(r.hold, r.owner, r.alloc, id, h');
    assert 0 !in r.owner;
    assert r.owner - {0} == r.owner;
  }

  lemma OwnedLingers(hold: map<Id, Hold>, owner: map<nat, Id>, a: Allocator, id: Id, h: Hold)
    requires Owned(hold, owner, a) && id in hold && Lingers(hold[id].phase) && Lingers(h.phase)
    requires a.OfPool? && h.handle.IsValid() && h.handle.tensorParallel && h.handle.id == 0
    ensures Owned(hold[id := h], owner, a)
  {
    hide BudgetsOk;
    var after := hold[id := h];
    forall x | x in after ensures OwnsAt(after, owner, a, x) {
      assert OwnsAt(hold, owner, a, x);
    }
  }

  lemma FreeKvKeeps(r: Res, order: seq<Id>, id: Id)
    requires Inv(r, order) && id in r.hold && (r.hold[id].phase.KvOnly? || r.hold[id].phase.Drawn?)
    ensures Inv(FreeKv(r, id), order)
  {
    hide BudgetsOk, Owned, BudgetOk;
    if r.hold[id].phase.KvOnly? {
      FreeOnce(r, order, id);
    } else {
      FreeTwice(r, order, id);
    }
  }

  /** A request's handle is valid while it keeps an allocation, and where the pool has left it so. */
  lemma ValidHandle(r: Res, order: seq<Id>, id: Id)
    requires Inv(r, order) && id in r.hold
    ensures r.hold[id].handle.IsValid() <==> Keeps(r.hold[id].phase) || Lingers(r.hold[id].phase)
    ensures Lingers(r.hold[id].phase) ==> r.alloc.OfPool? && r.hold[id].handle.tensorParallel
  {
    assert OwnsAt(r.hold, r.owner, r.alloc, id);
  }

  /** What `free` leaves of the handle. */
  lemma FreeKvLeaves(r: Res, order: seq<Id>, id: Id)
    requires Inv(r, order) && id in r.hold && (r.hold[id].phase.KvOnly? || r.hold[id].phase.Drawn?)
    ensures SameShape(r.alloc, FreeKv(r, id).alloc)
    ensures var (h, h') := (r.hold[id].handle, FreeKv(r, id).hold[id].handle);
      h'.currentLen == h.currentLen && h'.tensorParallel == h.tensorParallel
  {
    hide BudgetsOk, BytesOk;
    assert OwnsAt(r.hold, r.owner, r.alloc, id);
    if r.hold[id].phase.KvOnly? {
      HeldIsCounted(r, order, id);
      FreeEffect(r.alloc, r.hold[id].handle);
    } else {
      FreeAgain(r.alloc, r.hold[id].handle);
    }
  }

  /** Who owns a request's handle. */
  lemma OwnerOf(r: Res, order: seq<Id>, id: Id)
    requires Inv(r, order) && id in r.hold
    ensures HoldOk(id, r.hold[id], r.owner, r.alloc)
  {
    assert OwnsAt(r.hold, r.owner, r.alloc, id);
  }

  lemma HandleLength(r: Res, order: seq<Id>, id: Id)
    requires Inv(r, order) && id in r.hold && Keeps(r.hold[id].phase)
    ensures r.hold[id].handle.maxSeqLen == r.hold[id].seqLen
  {
    assert OwnsAt(r.hold, r.owner, r.alloc, id);
  }
}
