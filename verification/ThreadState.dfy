/** The state field of a thread, through which its callbacks talk to `pth_thread_runnable`. */
module ThreadState {

  /** UPTH_CREATED and so on; `BlockedMutex` is UPTH_BLK_MUTEX, which `pth_thread_has_blocked` stores. */
  datatype UState = Created | Runnable | Running | Exiting | Yielding | Joining | Sysc | BlockedMutex | Paused

  /** The states that `pth_thread_runnable` accepts; any other is odd (src/pvcq/upthread.c:298-310,
      src/gq/upthread.c:116-126). */
  predicate IsAccepted(st: UState) {
    st.Created? || st.Yielding? || st.Joining? || st.Sysc? || st.BlockedMutex? || st.Paused?
  }
}
