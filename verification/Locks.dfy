/**
 The sleeping locks of the driver, the modes they are held in, and the order in
 which every operation must take them.
 */
module Locks {

  datatype Lock =
    | GateLock(tg: nat)      // n_recall_PFNs: shared among blockers, shared among recallers
    | RecallMutex(tg: nat)   // tg->recall_PFNs_mutex
    | DestroyedWait(seg: nat) // xpmem_wait_for_seg_destroyed(): waited for, never held
    | Sema(seg: nat)         // seg->sema
    | Mmap(mm: nat)          // mm->mmap_sem, named by the address of the mm
    | AttMutex(att: nat)     // att->mutex
    | InvMutex(att: nat)     // att->invalidate_mutex

  /** NotHeld is the mode of a lock that a thread does not hold. */
  datatype Mode = NotHeld | Rd | Wr | Blk | Rcl

  /** Two threads may hold one lock together: readers, blockers or recallers only. */
  predicate Compatible(a: Mode, b: Mode) {
    a == NotHeld || b == NotHeld || (a == b && a != Wr)
  }

  /** Modes that step back for a waiter of the stronger mode of the same lock. */
  function Stronger(m: Mode): Mode {
    match m
    case Rd => Wr
    case Blk => Rcl
    case _ => NotHeld
  }

  function Class(l: Lock): nat {
    match l
    case GateLock(_) => 0
    case RecallMutex(_) => 1
    case DestroyedWait(_) => 2
    case Sema(_) => 3
    case Mmap(_) => 4
    case AttMutex(_) => 5
    case InvMutex(_) => 6
  }

  /** The lock order: by class, and mmap locks among themselves by address. */
  predicate Below(a: Lock, b: Lock) {
    Class(a) < Class(b) || (a.Mmap? && b.Mmap? && a.mm < b.mm)
  }
}
