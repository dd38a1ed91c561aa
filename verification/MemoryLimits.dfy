/** The start-up arithmetic that bounds instances by enclave memory. */
module MemoryLimits {
  import opened Common
  import opened WorkerModel
  import WorkerRuns

  const U32_MAX: nat := 0xFFFF_FFFF
  const PAGE: nat := 1024 * 64
  const SYSTEM_OVERHEAD: nat := 1024 * 1024 * 256
  const VM_OVERHEAD: nat := 1024 * 1024

  type u64 = x: nat | x < U64_MODULUS

  function SatSub(a: u64, b: u64): u64 {
    if a >= b then a - b else 0
  }

  /** `to_pages`, whose sum wraps at 64 bits. */
  function ToPages(size: u64): nat {
    (size + PAGE - 1) % U64_MODULUS / PAGE
  }

  function MaxAllowedInstances(enclaveSize: Option<u64>, instanceMemory: u64): Option<int> {
    match enclaveSize
    case None => None
    case Some(size) => Some(SatSub(size, SYSTEM_OVERHEAD) / SatAdd(instanceMemory, VM_OVERHEAD, U64_MAX))
  }

  /** `validate_mem_size`: without a known enclave size there is nothing to check. */
  predicate Validates(enclaveSize: Option<u64>, instanceMemory: u64, maxInstances: nat) {
    match MaxAllowedInstances(enclaveSize, instanceMemory)
    case None => true
    case Some(allowed) => maxInstances <= allowed
  }

  /** Pages cover the size and fewer would not, exactly when the rounding does not wrap. */
  lemma PagesRoundUpIff(size: u64)
    ensures (ToPages(size) * PAGE >= size && (ToPages(size) == 0 || (ToPages(size) - 1) * PAGE < size))
            <==> size + PAGE - 1 < U64_MODULUS
  {}

  lemma ProductBound(n: nat, limit: nat, perVm: nat, budget: nat)
    requires perVm > 0 && n <= limit <= budget / perVm
    ensures n * perVm <= budget
  {
    calc <= {
      n * perVm;
      { MulMono(n, limit, perVm); }
      limit * perVm;
      { MulMono(limit, budget / perVm, perVm); }
      budget / perVm * perVm;
      budget;
    }
  }

  lemma MulMono(a: nat, b: nat, c: nat)
    requires a <= b
    ensures a * c <= b * c
  {}

  lemma QuotientIff(n: nat, perVm: nat, budget: nat)
    requires perVm > 0
    ensures n <= budget / perVm <==> n * perVm <= budget
  {
    if n <= budget / perVm {
      ProductBound(n, budget / perVm, perVm, budget);
    } else {
      MulMono(budget / perVm + 1, n, perVm);
    }
  }

  /** The arguments validate exactly when that many instances, with their overheads, fit into the enclave. */
  lemma ValidatesIff(enclaveSize: u64, instanceMemory: u64, maxInstances: nat)
    ensures Validates(Some(enclaveSize), instanceMemory, maxInstances) <==>
      maxInstances * Min(instanceMemory + VM_OVERHEAD, U64_MAX) <= Max(0, enclaveSize - SYSTEM_OVERHEAD)
  {
    QuotientIff(maxInstances, SatAdd(instanceMemory, VM_OVERHEAD, U64_MAX), SatSub(enclaveSize, SYSTEM_OVERHEAD));
  }

  /** In every run of a worker whose arguments validated, the instances fit into the enclave. */
  lemma InstancesFitEnclave(s: WorkerRuns.World, enclaveSize: u64, instanceMemory: u64, maxInstances: nat)
    requires WorkerRuns.Reachable(s, maxInstances)
    requires Validates(Some(enclaveSize), instanceMemory, maxInstances)
    requires instanceMemory <= U32_MAX
    ensures Running(s.worker) * (ToPages(instanceMemory) * PAGE) <= Max(0, enclaveSize - SYSTEM_OVERHEAD)
  {
    WorkerRuns.CapacityHolds(s, maxInstances);
    var perVm := SatAdd(instanceMemory, VM_OVERHEAD, U64_MAX);
    ProductBound(Running(s.worker), maxInstances, perVm, SatSub(enclaveSize, SYSTEM_OVERHEAD));
    assert ToPages(instanceMemory) * PAGE <= perVm;
    var n := Running(s.worker);
    MulMono(ToPages(instanceMemory) * PAGE, perVm, n);
  }
}
