/** The outcome of an attempt to open a bag page. */
module OpenResult {
  import opened Wrappers
  import opened Enums
  import opened Players
  import opened LockInfo

  /**
   * Whether the page was opened, in which mode, the message shown to the
   * player, and the lock that blocked or downgraded the request.
   */
  datatype BagOpenResult = BagOpenResult(
    success: bool,
    accessMode: Option<AccessMode>,
    message: Option<string>,
    existingLock: Option<BagLockInfo>)
  {
    /** Opened for editing; such a result is never also read-only. */
    predicate IsEditMode()
      ensures IsEditMode() ==> success && !IsReadOnlyMode()
    {
      success && accessMode == Some(EDIT)
    }

    /** Opened for viewing only; such a result is a success without edit rights. */
    predicate IsReadOnlyMode()
      ensures IsReadOnlyMode() ==> success && accessMode != Some(EDIT)
    {
      success && accessMode == Some(READ_ONLY)
    }
  }

  const ReadOnlyPrefix: string := "§e该背包正被 "
  const ReadOnlySuffix: string := " 使用中，当前为只读模式"
  const AdminBlockedPrefix: string := "§c该背包正被管理员 "
  const AdminBlockedSuffix: string := " 编辑中，请稍后再试"
  const BlockedPrefix: string := "§c该背包正被 "
  const BlockedSuffix: string := " 使用中，请稍后再试"

  /** The opening words that only the administrator variant of the blocked message has. */
  const AdminWording: string := "§c该背包正被管理员"

  /** `name` occurs somewhere in `text`. */
  ghost predicate Mentions(text: string, name: string)
  {
    exists i :: 0 <= i <= |text| && name <= text[i..]
  }

  /** `text` opens with the administrator wording. */
  predicate HasAdminWording(text: string)
  {
    |AdminWording| <= |text| && text[..|AdminWording|] == AdminWording
  }

  lemma MentionsMiddle(prefix: string, name: string, suffix: string)
    ensures Mentions(prefix + name + suffix, name)
  {
    var text := prefix + name + suffix;
    assert name + suffix == text[|prefix|..];
  }

  /** Full access: success, EDIT, no message and no lock. */
  function EditMode(): (r: BagOpenResult)
    ensures r.IsEditMode() && !r.IsReadOnlyMode()
    ensures r.message == None && r.existingLock == None
  {
    BagOpenResult(true, Some(EDIT), None, None)
  }

  /** Degraded access while the owner holds the page. */
  function ReadOnlyMode(ownerLock: BagLockInfo): (r: BagOpenResult)
    ensures r.IsReadOnlyMode() && !r.IsEditMode()
    ensures r.existingLock == Some(ownerLock)
    ensures r.message.Some? && Mentions(r.message.value, ownerLock.holderName)
  {
    MentionsMiddle(ReadOnlyPrefix, ownerLock.holderName, ReadOnlySuffix);
    BagOpenResult(true, Some(READ_ONLY), Some(ReadOnlyPrefix + ownerLock.holderName + ReadOnlySuffix), Some(ownerLock))
  }

  /** Refusal: no mode, the blocking lock attached, and a message naming its holder. */
  function Blocked(lock: BagLockInfo): (r: BagOpenResult)
    ensures !r.success && r.accessMode == None && r.existingLock == Some(lock)
    ensures !r.IsEditMode() && !r.IsReadOnlyMode()
    ensures r.message.Some? && Mentions(r.message.value, lock.holderName)
    ensures HasAdminWording(r.message.value) <==> lock.lockType == ADMIN
  {
    var message :=
      if lock.lockType == ADMIN then AdminBlockedPrefix + lock.holderName + AdminBlockedSuffix
      else BlockedPrefix + lock.holderName + BlockedSuffix;
    if lock.lockType == ADMIN then
      MentionsMiddle(AdminBlockedPrefix, lock.holderName, AdminBlockedSuffix);
      assert message[..|AdminWording|] == AdminWording;
      BagOpenResult(false, None, Some(message), Some(lock))
    else
      MentionsMiddle(BlockedPrefix, lock.holderName, BlockedSuffix);
      assert message[7] == ' ' && AdminWording[7] == '管';
      BagOpenResult(false, None, Some(message), Some(lock))
  }

  /** No result is both in edit mode and in read-only mode, and a failed one is in neither. */
  lemma ModesExclusive(r: BagOpenResult)
    ensures !(r.IsEditMode() && r.IsReadOnlyMode())
    ensures !r.success ==> !r.IsEditMode() && !r.IsReadOnlyMode()
  {
  }
}
