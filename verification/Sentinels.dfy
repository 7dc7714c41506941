/** The lock markers ("sentinels") of the write-through cache: the decision table as the
    source states it over strings, the typed form the rest of the model uses, and the proof
    that the two agree. */
module Sentinels {

  type Key = string

  /** A version 4 uuid in its canonical text form, always 36 characters long. */
  datatype Uuid = Uuid(text: string)

  predicate ValidUuid(u: Uuid) { |u.text| == 36 }

  datatype SentinelType = Create | Update | Delete | Read

  datatype Kind = ReadLock | WriteLock | DeleteLock

  /** What an operation holds after asking for a lock; NoLock is the empty sentinel. */
  datatype Sentinel = NoLock | Held(kind: Kind, id: Uuid)

  /** What a cache key can hold. A write lock lists the writers that upgraded it to a conflict
      by appending their own sentinel; Names is a dependency list. */
  datatype Entry =
    | Lock(kind: Kind, id: Uuid, conflicts: seq<Uuid>)
    | Tombstone(id: Uuid)
    | Plain(text: string)
    | Names(keys: seq<Key>)

  datatype Outcome = SetIt | ClearIt | ConflictIt | Ignore

  function KindOf(stype: SentinelType): Kind {
    match stype
    case Read => ReadLock
    case Create => WriteLock
    case Update => WriteLock
    case Delete => DeleteLock
  }

  predicate IsSentinel(e: Entry) { e.Lock? || e.Tombstone? }

  function LockOf(s: Sentinel): Entry
    requires s.Held?
  {
    Lock(s.kind, s.id, [])
  }

  predicate CanSetSentinelGivenCurrVal(curr: Entry, s: Sentinel) {
    && !(s.Held? && s.kind == ReadLock)
    && !(curr.Lock? && curr.kind == DeleteLock)
  }

  /** What SetValue may do to its keys, given what the lock key holds. */
  function CanSetValue(curr: Entry, val: string, s: Sentinel): Outcome
    requires !curr.Names?
  {
    if s.NoLock? then
      if curr == Plain("") then SetIt else Ignore
    else if curr == LockOf(s) then SetIt
    else if s.kind != WriteLock then Ignore
    else match curr
      case Plain(text) => if text != val then ClearIt else Ignore
      case Lock(kind, id, _) =>
        if kind != WriteLock then Ignore
        else if id == s.id then ClearIt
        else ConflictIt
      case Tombstone(_) => Ignore
  }

  // ----- The same decisions as the source writes them, over strings -----

  const SENTINEL_PREFIX := "sentinel_"
  const TOMBSTONE_PREFIX := "Tombstone"

  function Prefix(kind: Kind): string {
    SENTINEL_PREFIX + match kind
                      case ReadLock => "read_"
                      case WriteLock => "write_"
                      case DeleteLock => "delete_"
  }

  predicate HasPrefix(s: string, prefix: string) { prefix <= s }

  predicate TextIsTombstone(v: string) { HasPrefix(v, TOMBSTONE_PREFIX) }

  predicate TextIsSentinel(v: string) { HasPrefix(v, SENTINEL_PREFIX) || TextIsTombstone(v) }

  predicate TextIsKind(v: string, kind: Kind) { HasPrefix(v, Prefix(kind)) }

  predicate TextCanSetSentinel(currVal: string, newVal: string) {
    if TextIsKind(newVal, ReadLock) then false
    else !TextIsKind(currVal, DeleteLock)
  }

  /** The four flags the source returns: set, clear, conflict, refresh. */
  datatype Flags = Flags(set_: bool, clear: bool, conflict: bool, refresh: bool)

  function TextCanSetValue(currVal: string, val: string, sentinel: string): Flags {
    if currVal == sentinel then Flags(true, false, false, false)
    else if TextIsKind(sentinel, WriteLock) then
      if !TextIsSentinel(currVal) && val != currVal then
        if !TextIsTombstone(currVal) then Flags(false, true, false, false)
        else Flags(false, false, false, false)
      else if HasPrefix(currVal, sentinel) then Flags(false, true, false, false)
      else if TextIsKind(currVal, WriteLock) then Flags(false, false, true, false)
      else Flags(false, false, false, false)
    else Flags(false, false, false, false)
  }

  function FlagsOf(o: Outcome): Flags {
    Flags(o == SetIt, o == ClearIt, o == ConflictIt, false)
  }

  // ----- The encoding -----

  function SentinelText(s: Sentinel): string {
    match s
    case NoLock => ""
    case Held(kind, id) => Prefix(kind) + id.text
  }

  function ConflictText(conflicts: seq<Uuid>): string {
    if conflicts == [] then ""
    else ConflictText(conflicts[..|conflicts| - 1]) + SentinelText(Held(WriteLock, conflicts[|conflicts| - 1]))
  }

  function EntryText(e: Entry): string
    requires !e.Names?
  {
    match e
    case Lock(kind, id, conflicts) => SentinelText(Held(kind, id)) + ConflictText(conflicts)
    case Tombstone(id) => TOMBSTONE_PREFIX + id.text
    case Plain(text) => text
  }

  /** The values the protocol puts in keys: uuids have their fixed length, only write locks are
      upgraded, and stored items (JSON) never look like a sentinel. */
  predicate WellFormed(e: Entry) {
    match e
    case Lock(kind, id, conflicts) => ValidUuid(id) && (conflicts != [] ==> kind == WriteLock)
    case Tombstone(id) => ValidUuid(id)
    case Plain(text) => !TextIsSentinel(text)
    case Names(_) => false
  }

  predicate WellFormedSentinel(s: Sentinel) { s.Held? ==> ValidUuid(s.id) }

  /** The prefix alone tells the kinds apart: no text starts with two of them. */
  lemma PrefixesDiffer(a: Kind, b: Kind, v: string)
    requires TextIsKind(v, a) && TextIsKind(v, b)
    ensures a == b
  {
    assert v[9] == Prefix(a)[9] == Prefix(b)[9];
  }

  lemma KindIsSentinel(v: string, kind: Kind)
    requires TextIsKind(v, kind)
    ensures HasPrefix(v, SENTINEL_PREFIX)
    ensures !TextIsTombstone(v)
  {
    assert v[0] == Prefix(kind)[0] == 's';
  }

  lemma LockTextStarts(kind: Kind, id: Uuid, tail: string)
    ensures TextIsKind(SentinelText(Held(kind, id)) + tail, kind)
  {
    assert SentinelText(Held(kind, id)) + tail == Prefix(kind) + (id.text + tail);
  }

  /** Because uuids have one length, "starts with my sentinel" means "is owned by me". */
  lemma OwnerTest(kind: Kind, a: Uuid, b: Uuid, tail: string)
    requires ValidUuid(a) && ValidUuid(b)
    ensures HasPrefix(SentinelText(Held(kind, a)) + tail, SentinelText(Held(kind, b))) <==> a == b
  {
    var p, whole, mine := Prefix(kind), SentinelText(Held(kind, a)) + tail, SentinelText(Held(kind, b));
    if HasPrefix(whole, mine) {
      forall i | 0 <= i < 36 ensures a.text[i] == b.text[i] {
        assert whole[|p| + i] == mine[|p| + i];
      }
    }
  }

  lemma ConflictTextEmpty(conflicts: seq<Uuid>)
    ensures ConflictText(conflicts) == "" <==> conflicts == []
  {
    if conflicts != [] {
      assert |SentinelText(Held(WriteLock, conflicts[|conflicts| - 1]))| > 0;
    }
  }

  lemma TombstoneText(e: Entry)
    requires e.Tombstone? && WellFormed(e)
    ensures TextIsTombstone(EntryText(e))
    ensures forall kind :: !TextIsKind(EntryText(e), kind)
  {
    assert EntryText(e)[0] == 'T';
    forall kind ensures !TextIsKind(EntryText(e), kind) {
      assert Prefix(kind)[0] == 's';
    }
  }

  lemma PlainText(text: string)
    requires !TextIsSentinel(text)
    ensures forall kind :: !TextIsKind(text, kind)
  {
    forall kind ensures !TextIsKind(text, kind) {
      if TextIsKind(text, kind) { KindIsSentinel(text, kind); }
    }
  }

  /** The typed test "is this a sentinel" is the source's prefix test. */
  lemma SentinelTestAgrees(e: Entry)
    requires WellFormed(e)
    ensures TextIsSentinel(EntryText(e)) <==> IsSentinel(e)
    ensures forall kind :: TextIsKind(EntryText(e), kind) <==> e.Lock? && e.kind == kind
  {
    match e
    case Lock(kind, id, conflicts) =>
      LockTextStarts(kind, id, ConflictText(conflicts));
      KindIsSentinel(EntryText(e), kind);
      forall other ensures TextIsKind(EntryText(e), other) <==> kind == other {
        if TextIsKind(EntryText(e), other) { PrefixesDiffer(kind, other, EntryText(e)); }
      }
    case Tombstone(_) => TombstoneText(e);
    case Plain(text) => PlainText(text);
  }

  lemma SentinelTextKind(s: Sentinel)
    requires s.Held?
    ensures forall kind :: TextIsKind(SentinelText(s), kind) <==> s.kind == kind
  {
    LockTextStarts(s.kind, s.id, "");
    assert SentinelText(s) + "" == SentinelText(s);
    forall kind ensures TextIsKind(SentinelText(s), kind) <==> s.kind == kind {
      if TextIsKind(SentinelText(s), kind) { PrefixesDiffer(s.kind, kind, SentinelText(s)); }
    }
  }

  /** Lock precedence decided on the typed entries is lock precedence decided on the strings. */
  lemma LockDecisionAgrees(curr: Entry, s: Sentinel)
    requires WellFormed(curr) && s.Held? && ValidUuid(s.id)
    ensures TextCanSetSentinel(EntryText(curr), SentinelText(s)) <==> CanSetSentinelGivenCurrVal(curr, s)
  {
    SentinelTestAgrees(curr);
    SentinelTextKind(s);
  }

  /** The whole key equals my sentinel exactly when I own it and nobody upgraded it. */
  lemma ExactOwnerTest(curr: Entry, s: Sentinel)
    requires WellFormed(curr) && s.Held? && ValidUuid(s.id)
    ensures EntryText(curr) == SentinelText(s) <==> curr == LockOf(s)
  {
    SentinelTestAgrees(curr);
    SentinelTextKind(s);
    if EntryText(curr) == SentinelText(s) {
      assert TextIsKind(EntryText(curr), s.kind);
      OwnerTest(s.kind, curr.id, s.id, ConflictText(curr.conflicts));
      assert |ConflictText(curr.conflicts)| == 0;
      ConflictTextEmpty(curr.conflicts);
    }
  }

  /** The decision table on typed entries gives the four flags the source computes from the
      strings, for every key value the protocol can store and every sentinel. */
  lemma SetDecisionAgrees(curr: Entry, val: string, s: Sentinel)
    requires WellFormed(curr) && WellFormedSentinel(s)
    ensures TextCanSetValue(EntryText(curr), val, SentinelText(s)) == FlagsOf(CanSetValue(curr, val, s))
  {
    SentinelTestAgrees(curr);
    if s.Held? {
      ExactOwnerTest(curr, s);
      SentinelTextKind(s);
      KindIsSentinel(SentinelText(s), s.kind);
      if s.kind == WriteLock && curr.Lock? && curr.kind == WriteLock {
        OwnerTest(WriteLock, curr.id, s.id, ConflictText(curr.conflicts));
      }
      if curr.Lock? { KindIsSentinel(EntryText(curr), curr.kind); }
      if s.kind == WriteLock && HasPrefix(EntryText(curr), SentinelText(s)) {
        assert Prefix(WriteLock) <= SentinelText(s) <= EntryText(curr);
        assert TextIsKind(EntryText(curr), WriteLock);
      }
    } else {
      if curr.Lock? { LockTextStarts(curr.kind, curr.id, ConflictText(curr.conflicts)); }
    }
  }

  /** Upgrading a lock in the typed form is appending the sentinel to the stored string. */
  lemma UpgradeAppends(curr: Entry, s: Sentinel)
    requires curr.Lock? && s.Held? && s.kind == WriteLock
    ensures EntryText(curr.(conflicts := curr.conflicts + [s.id])) == EntryText(curr) + SentinelText(s)
  {
    var longer := curr.conflicts + [s.id];
    assert longer[..|longer| - 1] == curr.conflicts;
  }
}
