/** One key as the code keeps it, a text: what the provider does to it, written with the tests on
    strings, is what the typed steps do. */
module SlotText {
  import opened Options
  import opened Sentinels
  import opened SlotOps

  type TextSlot = Option<string>

  function TextLock(slot: TextSlot, sentinel: string): TextSlot {
    if slot.Some? && TextIsSentinel(slot.value) && !TextCanSetSentinel(slot.value, sentinel) then slot else Some(sentinel)
  }

  function TextRelease(slot: TextSlot, sentinel: string): TextSlot {
    if slot == Some(sentinel) then None else slot
  }

  function TextCommit(slot: TextSlot, val: string, sentinel: string): TextSlot {
    if slot.None? then None
    else
      var flags := TextCanSetValue(slot.value, val, sentinel);
      if flags.set_ then Some(val)
      else if flags.clear then None
      else if flags.conflict then Some(slot.value + sentinel)
      else slot
  }

  predicate Encodable(slot: Slot) { slot.Some? ==> WellFormed(slot.value) }

  function Encode(slot: Slot): TextSlot
    requires Encodable(slot)
  {
    if slot.None? then None else Some(EntryText(slot.value))
  }

  /** Taking a lock, letting go of it, and storing a value under it: the typed step and then the text
      is the text and then the code's step; and what can be written as a text stays so. */
  lemma StepsAgree(slot: Slot, val: string, s: Sentinel)
    requires Encodable(slot) && s.Held? && ValidUuid(s.id) && !TextIsSentinel(val)
    ensures Encodable(LockSlot(slot, s)) && Encode(LockSlot(slot, s)) == TextLock(Encode(slot), SentinelText(s))
    ensures Encodable(ReleaseSlot(slot, s)) && Encode(ReleaseSlot(slot, s)) == TextRelease(Encode(slot), SentinelText(s))
    ensures Encodable(CommitSlot(slot, val, s)) && Encode(CommitSlot(slot, val, s)) == TextCommit(Encode(slot), val, SentinelText(s))
  {
    LockIsText(s);
    if slot.Some? {
      var curr := slot.value;
      SentinelTestAgrees(curr);
      LockDecisionAgrees(curr, s);
      ExactOwnerTest(curr, s);
      SetDecisionAgrees(curr, val, s);
      if CanSetValue(curr, val, s) == ConflictIt { UpgradeAppends(curr, s); }
    }
  }

  lemma LockIsText(s: Sentinel)
    requires s.Held?
    ensures EntryText(LockOf(s)) == SentinelText(s)
  {
    assert ConflictText([]) == "";
  }
}
