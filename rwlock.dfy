/** The reader-writer lock of lib/uklock.

    Every field update in the C code happens inside one critical section of
    the lock's internal spinlock, so each critical section is one method
    here. A `while (1)` spin loop becomes a "try" method that performs one
    iteration of it: it re-checks the loop's exit condition and, when that
    holds, completes the acquisition; a caller repeats it until it succeeds.

    Two ghost fields count the holders: `readers` (callers holding read
    access) and `writer` (whether a caller holds write access). `Valid` ties
    them to `nactive`, which gives reader/writer exclusion. The wake flags
    the C code computes are returned; nothing is woken. */
module RwLock {

  class RwLock {
    /** 0 = free, n > 0 = n readers, -1 = one writer. */
    var nactive: int
    var npendingReads: int
    var npendingWrites: int
    /** The write-recursive bit of `config_flags`. */
    const writeRecursive: bool

    ghost var readers: nat
    ghost var writer: bool

    ghost predicate Valid()
      reads this
    {
      && nactive >= -1
      && npendingReads >= 0
      && npendingWrites >= 0
      && (nactive == -1 <==> writer)
      && (writer ==> readers == 0)
      && (nactive >= 0 ==> readers == nactive)
      && !writeRecursive
    }

    /** Reader/writer exclusion and the meaning of `nactive`, read back from
        `Valid`. The substance is that every operation below keeps `Valid`,
        which each one states in its own contract. */
    lemma Exclusion()
      requires Valid()
      ensures nactive == -1 <==> writer && readers == 0
      ensures nactive > 0 <==> !writer && readers == nactive && readers > 0
      ensures nactive == 0 <==> !writer && readers == 0
    {
    }

    /** uk_rwlock_init_config: all counters zero; a write-recursive
        configuration fails the initialisation assertion. */
    constructor Init(writeRecursive: bool)
      requires !writeRecursive
      ensures Valid()
      ensures nactive == 0 && npendingReads == 0 && npendingWrites == 0
      ensures readers == 0 && !writer
      ensures this.writeRecursive == writeRecursive
    {
      nactive := 0;
      npendingReads := 0;
      npendingWrites := 0;
      this.writeRecursive := writeRecursive;
      readers := 0;
      writer := false;
    }

    /** First critical section of uk_rwlock_rlock: announce a pending read. */
    method RegisterRead()
      requires Valid()
      modifies this
      ensures Valid()
      ensures npendingReads == old(npendingReads) + 1
      ensures nactive == old(nactive) && npendingWrites == old(npendingWrites)
      ensures readers == old(readers) && writer == old(writer)
    {
      npendingReads := npendingReads + 1;
    }

    /** One iteration of uk_rwlock_rlock's spin loop: the read is granted
        exactly when no writer is active. The caller must have registered. */
    method TryAcquireRead() returns (acquired: bool)
      requires Valid() && npendingReads > 0
      modifies this
      ensures Valid()
      ensures acquired <==> old(nactive) >= 0
      ensures acquired ==> nactive == old(nactive) + 1 && npendingReads == old(npendingReads) - 1
      ensures acquired ==> readers == old(readers) + 1
      ensures !acquired ==> nactive == old(nactive) && npendingReads == old(npendingReads)
      ensures !acquired ==> readers == old(readers)
      ensures npendingWrites == old(npendingWrites) && writer == old(writer)
    {
      acquired := nactive >= 0;
      if acquired {
        nactive := nactive + 1;
        npendingReads := npendingReads - 1;
        readers := readers + 1;
      }
    }

    /** One iteration of the read loop as its writer-starvation comment
        intends: a read is granted only when no writer is active and none
        is waiting, so while a writer waits no reader joins. */
    method TryAcquireReadAfterWriters() returns (acquired: bool)
      requires Valid() && npendingReads > 0
      modifies this
      ensures Valid()
      ensures acquired <==> old(nactive) >= 0 && old(npendingWrites) == 0
      ensures old(npendingWrites) > 0 ==> nactive == old(nactive) && readers == old(readers)
      ensures acquired ==> nactive == old(nactive) + 1 && npendingReads == old(npendingReads) - 1
      ensures acquired ==> readers == old(readers) + 1
      ensures !acquired ==> nactive == old(nactive) && npendingReads == old(npendingReads)
      ensures !acquired ==> readers == old(readers)
      ensures npendingWrites == old(npendingWrites) && writer == old(writer)
    {
      acquired := nactive >= 0 && npendingWrites == 0;
      if acquired {
        nactive := nactive + 1;
        npendingReads := npendingReads - 1;
        readers := readers + 1;
      }
    }

    /** First critical section of uk_rwlock_wlock: announce a pending write. */
    method RegisterWrite()
      requires Valid()
      modifies this
      ensures Valid()
      ensures npendingWrites == old(npendingWrites) + 1
      ensures nactive == old(nactive) && npendingReads == old(npendingReads)
      ensures readers == old(readers) && writer == old(writer)
    {
      npendingWrites := npendingWrites + 1;
    }

    /** One iteration of the spin loop shared by uk_rwlock_wlock and the
        contended branch of uk_rwlock_upgrade: write access is granted
        exactly when the lock is free. The caller must have registered. */
    method TryAcquireWrite() returns (acquired: bool)
      requires Valid() && npendingWrites > 0
      modifies this
      ensures Valid()
      ensures acquired <==> old(nactive) == 0
      ensures acquired ==> nactive == -1 && npendingWrites == old(npendingWrites) - 1
      ensures acquired ==> writer && readers == 0
      ensures !acquired ==> nactive == old(nactive) && npendingWrites == old(npendingWrites)
      ensures !acquired ==> writer == old(writer) && readers == old(readers)
      ensures npendingReads == old(npendingReads)
    {
      acquired := nactive == 0;
      if acquired {
        npendingWrites := npendingWrites - 1;
        nactive := -1;
        writer := true;
      }
    }

    /** uk_rwlock_runlock: the caller holds read access; `wakeWriters` is
        set when it was the last reader and writers wait. */
    method ReadUnlock() returns (wakeWriters: bool)
      requires Valid() && nactive > 0
      modifies this
      ensures Valid()
      ensures nactive == old(nactive) - 1 && readers == old(readers) - 1
      ensures npendingReads == old(npendingReads) && npendingWrites == old(npendingWrites)
      ensures wakeWriters <==> old(nactive) == 1 && npendingWrites > 0
      ensures !writer
    {
      nactive := nactive - 1;
      readers := readers - 1;
      wakeWriters := nactive == 0 && npendingWrites > 0;
    }

    /** uk_rwlock_wunlock: the caller holds write access; `wakeReaders` is
        set when reads are pending. */
    method WriteUnlock() returns (wakeReaders: bool)
      requires Valid() && nactive == -1
      modifies this
      ensures Valid()
      ensures nactive == 0 && !writer && readers == 0
      ensures npendingReads == old(npendingReads) && npendingWrites == old(npendingWrites)
      ensures wakeReaders <==> npendingReads > 0
    {
      nactive := 0;
      writer := false;
      wakeReaders := npendingReads > 0;
    }

    /** The critical section that opens uk_rwlock_upgrade. A sole reader
        becomes the writer at once (`done`); otherwise the caller leaves the
        readers and becomes a pending writer, and finishes by repeating
        `TryAcquireWrite`. Upgrading without read access fails an assertion. */
    method Upgrade() returns (done: bool)
      requires Valid() && nactive >= 1
      modifies this
      ensures Valid()
      ensures done <==> old(nactive) == 1
      ensures done ==> nactive == -1 && writer && readers == 0
      ensures done ==> npendingWrites == old(npendingWrites)
      ensures !done ==> nactive == old(nactive) - 1 && nactive > 0
      ensures !done ==> readers == old(readers) - 1
      ensures !done ==> npendingWrites == old(npendingWrites) + 1
      ensures npendingReads == old(npendingReads)
    {
      if nactive == 1 {
        nactive := -1;
        readers := 0;
        writer := true;
        done := true;
      } else {
        npendingWrites := npendingWrites + 1;
        nactive := nactive - 1;
        readers := readers - 1;
        done := false;
      }
    }

    /** uk_rwlock_downgrade: the writer becomes the only reader. */
    method Downgrade() returns (wakeReaders: bool)
      requires Valid() && nactive == -1
      modifies this
      ensures Valid()
      ensures nactive == 1 && readers == 1 && !writer
      ensures npendingReads == old(npendingReads) && npendingWrites == old(npendingWrites)
      ensures wakeReaders <==> npendingReads > 0
    {
      nactive := 1;
      readers := 1;
      writer := false;
      wakeReaders := npendingReads > 0;
    }
  }

  /** uk_rwlock_rlock on a lock no writer holds: registering and one loop
      iteration take the read, leaving the pending reads as they were. */
  method ReadLockUncontended(l: RwLock)
    requires l.Valid() && l.nactive >= 0
    modifies l
    ensures l.Valid()
    ensures l.nactive == old(l.nactive) + 1 && l.readers == old(l.readers) + 1
    ensures l.npendingReads == old(l.npendingReads)
    ensures l.npendingWrites == old(l.npendingWrites)
  {
    l.RegisterRead();
    var acquired := l.TryAcquireRead();
    assert acquired;
  }

  /** uk_rwlock_wlock on a free lock: write access with the pending writes
      back to their value before the call. */
  method WriteLockUncontended(l: RwLock)
    requires l.Valid() && l.nactive == 0
    modifies l
    ensures l.Valid()
    ensures l.nactive == -1 && l.writer && l.readers == 0
    ensures l.npendingReads == old(l.npendingReads)
    ensures l.npendingWrites == old(l.npendingWrites)
  {
    l.RegisterWrite();
    var acquired := l.TryAcquireWrite();
    assert acquired;
  }

  /** uk_rwlock_upgrade with other readers present: the caller becomes a
      pending writer, the other readers leave (their uk_rwlock_runlock
      calls), and one iteration of the loop then grants write access, with
      the pending writes back to their value before the call. */
  method UpgradeWhileOthersLeave(l: RwLock)
    requires l.Valid() && l.nactive > 1
    modifies l
    ensures l.Valid()
    ensures l.nactive == -1 && l.writer && l.readers == 0
    ensures l.npendingWrites == old(l.npendingWrites)
    ensures l.npendingReads == old(l.npendingReads)
  {
    var done := l.Upgrade();
    while l.nactive > 0
      invariant l.Valid() && l.nactive >= 0
      invariant l.npendingWrites == old(l.npendingWrites) + 1
      invariant l.npendingReads == old(l.npendingReads)
      decreases l.nactive
    {
      var _ := l.ReadUnlock();
    }
    var acquired := l.TryAcquireWrite();
  }

  /** uk_rwlock_rlock as written while a reader holds the lock and a writer
      waits: the new reader enters at once, so the readers the writer waits
      for grow instead of draining. */
  method ReaderOvertakesPendingWriter(l: RwLock)
    requires l.Valid() && l.nactive > 0 && l.npendingWrites > 0
    modifies l
    ensures l.Valid()
    ensures l.nactive == old(l.nactive) + 1 && l.readers == old(l.readers) + 1
    ensures l.npendingWrites == old(l.npendingWrites) && l.npendingReads == old(l.npendingReads)
  {
    l.RegisterRead();
    var acquired := l.TryAcquireRead();
    assert acquired;
  }

  /** The same arrival with the intended test: the new reader stays pending
      and the active readers do not grow, so once they unlock the waiting
      writer's loop succeeds. */
  method ReaderDefersToPendingWriter(l: RwLock)
    requires l.Valid() && l.nactive > 0 && l.npendingWrites > 0
    modifies l
    ensures l.Valid()
    ensures l.nactive == old(l.nactive) && l.readers == old(l.readers)
    ensures l.npendingReads == old(l.npendingReads) + 1 && l.npendingWrites == old(l.npendingWrites)
  {
    l.RegisterRead();
    var acquired := l.TryAcquireReadAfterWriters();
    assert !acquired;
  }
}
