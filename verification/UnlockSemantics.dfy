/** Lock and access constants (lib/Secrets/secretmanager.h:48-68). */
module UnlockSemantics {
  const DEVICE_LOCK_KEEP_UNLOCKED := 0
  const CUSTOM_LOCK_KEEP_UNLOCKED := 8
  const NO_ACCESS_CONTROL := 2

  /** The collection is to stay unlocked once it was opened. */
  predicate KeepsUnlocked(usesDeviceLockKey: bool, unlockSemantic: int) {
    unlockSemantic == if usesDeviceLockKey then DEVICE_LOCK_KEEP_UNLOCKED else CUSTOM_LOCK_KEEP_UNLOCKED
  }
}
